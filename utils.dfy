/**
 * The helpers of lib/utils.ts that compute something: the message chosen by
 * `handleError`, `getImageSize`, the query-map part of `formUrlQuery` and
 * `removeKeysFromQuery`, the file name chosen by `download`, and
 * `deepMergeObjects`.
 */
module Utils {
  import opened Wrappers
  import opened JsValues

  // ---------------------------------------------------------------------
  // handleError
  // ---------------------------------------------------------------------

  /** The argument of `handleError`, classified by the branch it takes. */
  datatype ErrorArg =
    | ErrorInstance(message: string)   // `error instanceof Error`
    | StringValue(text: string)        // `typeof error === "string"`
    | OtherValue(serialized: string)   // anything else; `serialized` is what JSON.stringify gives for it
    | Unserializable(typeError: string) // anything else on which JSON.stringify throws (a BigInt, a cycle)

  /** What `handleError` throws: the `Error` it builds, or the TypeError `JSON.stringify` raised first. */
  datatype Thrown = NewError(message: string) | StringifyTypeError(message: string)

  const KnownPrefix := "Error: "
  const UnknownPrefix := "Unknown error: "

  /**
   * `handleError` never returns normally: it always throws. For a value
   * `JSON.stringify` cannot serialize, its TypeError escapes before any `Error`
   * is built. Otherwise the new `Error`'s message carries the "Error: " prefix
   * exactly for `Error` instances and strings, the "Unknown error: " prefix
   * exactly for everything else, and the original text follows the prefix
   * unchanged.
   */
  function HandleError(error: ErrorArg): (r: Thrown)
    ensures r.StringifyTypeError? <==> error.Unserializable?
    ensures error.Unserializable? ==> r.message == error.typeError
    ensures r.NewError? ==> (error.ErrorInstance? || error.StringValue? <==> KnownPrefix <= r.message)
    ensures r.NewError? ==> (error.OtherValue? <==> UnknownPrefix <= r.message)
    ensures error.ErrorInstance? ==> r.message[|KnownPrefix|..] == error.message
    ensures error.StringValue? ==> r.message[|KnownPrefix|..] == error.text
    ensures error.OtherValue? ==> r.message[|UnknownPrefix|..] == error.serialized
  {
    match error
    case ErrorInstance(m) =>
      assert (KnownPrefix + m)[0] != UnknownPrefix[0];
      NewError(KnownPrefix + m)
    case StringValue(s) =>
      assert (KnownPrefix + s)[0] != UnknownPrefix[0];
      NewError(KnownPrefix + s)
    case OtherValue(j) =>
      assert (UnknownPrefix + j)[0] != KnownPrefix[0];
      NewError(UnknownPrefix + j)
    case Unserializable(t) =>
      StringifyTypeError(t)
  }

  // ---------------------------------------------------------------------
  // getImageSize
  // ---------------------------------------------------------------------

  datatype Dimension = Width | Height

  /** The fields of an image record that `getImageSize` reads. */
  datatype Image = Image(aspectRatio: string, width: int, height: int)

  /** One entry of the `aspectRatioOptions` table (defined outside this model). */
  datatype AspectRatioOption = AspectRatioOption(width: int, height: int)

  const DefaultSize := 1000

  function ImageDimension(image: Image, dimension: Dimension): int
  {
    match dimension
    case Width => image.width
    case Height => image.height
  }

  function OptionDimension(option: AspectRatioOption, dimension: Dimension): int
  {
    match dimension
    case Width => option.width
    case Height => option.height
  }

  /** `n || 1000` for a number that may be `undefined`: a missing or zero number falls back. */
  function OrDefault(n: Option<int>): int
  {
    if n.Some? && n.value != 0 then n.value else DefaultSize
  }

  /**
   * For `type === "fill"` the size comes from the aspect-ratio table, else from
   * the image itself; in both cases a missing or zero number becomes 1000, so
   * the result is never 0. The fill branch reads `image.aspectRatio` without
   * optional chaining and so throws a TypeError when there is no image.
   */
  function GetImageSize(kind: string, image: Option<Image>, dimension: Dimension,
                        aspectRatioOptions: map<string, AspectRatioOption>): (r: Result<int>)
    ensures r.Err? <==> kind == "fill" && image.None?
    ensures r.Ok? ==> r.value != 0
    ensures kind == "fill" && image.Some? && image.value.aspectRatio in aspectRatioOptions
            && OptionDimension(aspectRatioOptions[image.value.aspectRatio], dimension) != 0
            ==> r == Ok(OptionDimension(aspectRatioOptions[image.value.aspectRatio], dimension))
    ensures kind == "fill" && image.Some?
            && (image.value.aspectRatio !in aspectRatioOptions
                || OptionDimension(aspectRatioOptions[image.value.aspectRatio], dimension) == 0)
            ==> r == Ok(DefaultSize)
    ensures kind != "fill" && image.Some? && ImageDimension(image.value, dimension) != 0
            ==> r == Ok(ImageDimension(image.value, dimension))
    ensures kind != "fill" && (image.None? || ImageDimension(image.value, dimension) == 0)
            ==> r == Ok(DefaultSize)
  {
    if kind == "fill" then
      if image.None? then Err("TypeError")
      else
        var key := image.value.aspectRatio;
        Ok(OrDefault(if key in aspectRatioOptions
                     then Some(OptionDimension(aspectRatioOptions[key], dimension))
                     else None))
    else
      Ok(OrDefault(if image.Some? then Some(ImageDimension(image.value, dimension)) else None))
  }

  // ---------------------------------------------------------------------
  // formUrlQuery and removeKeysFromQuery, on the parsed query map
  // ---------------------------------------------------------------------

  /** `{ ...params, [key]: value }`: `key` is set to the string `value`, every other entry stays. */
  function FormUrlQuery(params: map<string, JsValue>, key: string, value: string): (r: map<string, JsValue>)
    ensures r.Keys == params.Keys + {key}
    ensures r[key] == Str(value)
    ensures forall k :: k in params && k != key ==> r[k] == params[k]
  {
    params[key := Str(value)]
  }

  /** The query left once the keys in `removed` and every null or undefined entry are gone. */
  function Cleaned(query: map<string, JsValue>, removed: set<string>): (r: map<string, JsValue>)
  {
    map k | k in query && k !in removed && !IsNullish(query[k]) :: query[k]
  }

  /**
   * `removeKeysFromQuery` deletes each key of `keysToRemove`, then deletes each
   * remaining key whose value is `== null`. What is left is exactly the
   * entries that survive both, with their values unchanged.
   */
  method RemoveKeysFromQuery(searchParams: map<string, JsValue>, keysToRemove: seq<string>)
    returns (currentUrl: map<string, JsValue>)
    ensures forall k :: k in currentUrl <==> k in searchParams && k !in keysToRemove && !IsNullish(searchParams[k])
    ensures forall k :: k in currentUrl ==> currentUrl[k] == searchParams[k]
    ensures currentUrl == Cleaned(searchParams, set k | k in keysToRemove)
  {
    currentUrl := searchParams;
    for i := 0 to |keysToRemove|
      invariant forall k :: k in currentUrl <==> k in searchParams && k !in keysToRemove[..i]
      invariant forall k :: k in currentUrl ==> currentUrl[k] == searchParams[k]
    {
      currentUrl := currentUrl - {keysToRemove[i]};
    }
    assert keysToRemove[..|keysToRemove|] == keysToRemove;
    ghost var afterRemoval := currentUrl;
    var pending := currentUrl.Keys;
    while pending != {}
      invariant pending <= afterRemoval.Keys
      invariant forall k :: k in currentUrl <==> k in afterRemoval && (k in pending || !IsNullish(afterRemoval[k]))
      invariant forall k :: k in currentUrl ==> currentUrl[k] == afterRemoval[k]
      decreases pending
    {
      var key :| key in pending;
      if IsNullish(currentUrl[key]) {
        currentUrl := currentUrl - {key};
      }
      pending := pending - {key};
    }
  }

  /** Setting a key and then removing it leaves the same query as removing it alone. */
  lemma RemoveUndoesForm(query: map<string, JsValue>, removed: set<string>, key: string, value: string)
    requires key in removed
    ensures Cleaned(FormUrlQuery(query, key, value), removed) == Cleaned(query, removed)
  {
  }

  /** Setting a key that is not removed commutes with the clean-up: a string value is never nullish. */
  lemma FormCommutesWithClean(query: map<string, JsValue>, removed: set<string>, key: string, value: string)
    requires key !in removed
    ensures Cleaned(FormUrlQuery(query, key, value), removed) == FormUrlQuery(Cleaned(query, removed), key, value)
  {
  }

  // ---------------------------------------------------------------------
  // download: the file name
  // ---------------------------------------------------------------------

  /** The position of the first `c` in `s`. */
  function IndexOf(s: string, c: char): (i: nat)
    requires c in s
    ensures i < |s| && s[i] == c && c !in s[..i]
  {
    if s[0] == c then 0 else 1 + IndexOf(s[1..], c)
  }

  /** `s.replace(pattern, replacement)` for a one-character string pattern: only the first match is replaced. */
  function ReplaceFirst(s: string, pattern: char, replacement: char): (r: string)
    ensures pattern !in s ==> r == s
    ensures pattern in s ==> r == s[..IndexOf(s, pattern)] + [replacement] + s[IndexOf(s, pattern) + 1..]
  {
    if s == [] then []
    else if s[0] == pattern then [replacement] + s[1..]
    else
      assert s == [s[0]] + s[1..];
      [s[0]] + ReplaceFirst(s[1..], pattern, replacement)
  }

  /** How many times `c` occurs in `s`. */
  function Occurrences(s: string, c: char): nat
  {
    if s == [] then 0 else (if s[0] == c then 1 else 0) + Occurrences(s[1..], c)
  }

  lemma {:induction false} OccurrencesAppend(s: string, t: string, c: char)
    ensures Occurrences(s + t, c) == Occurrences(s, c) + Occurrences(t, c)
  {
    if s != [] {
      assert (s + t)[1..] == s[1..] + t;
      OccurrencesAppend(s[1..], t, c);
    } else {
      assert s + t == t;
    }
  }

  /** Replacing the first match removes exactly one occurrence of the pattern, if there was one. */
  lemma {:induction false} ReplaceFirstRemovesOne(s: string, pattern: char, replacement: char)
    requires pattern != replacement
    ensures Occurrences(ReplaceFirst(s, pattern, replacement), pattern)
            == Occurrences(s, pattern) - (if pattern in s then 1 else 0)
  {
    if s != [] {
      ReplaceFirstRemovesOne(s[1..], pattern, replacement);
      if s[0] == pattern {
        assert ([replacement] + s[1..])[1..] == s[1..];
      } else {
        assert pattern in s <==> pattern in s[1..];
        assert ([s[0]] + ReplaceFirst(s[1..], pattern, replacement))[1..] == ReplaceFirst(s[1..], pattern, replacement);
      }
    }
  }

  const ImageExtension := ".png"
  const MissingUrlMessage := "Resource URL not provided! You need to provide one"

  /**
   * `download(url, filename)` throws at once for an empty URL. Otherwise the
   * anchor's download name is set only for a non-empty `filename`, and is
   * then `filename` with its first space turned into `_`, followed by ".png".
   */
  function DownloadName(url: string, filename: string): (r: Result<Option<string>>)
    ensures r.Err? <==> url == ""
    ensures r.Err? ==> r.message == MissingUrlMessage
    ensures r.Ok? ==> (r.value.Some? <==> filename != "")
    ensures r.Ok? && r.value.Some? ==> |r.value.value| == |filename| + 4 && r.value.value[|filename|..] == ".png"
    ensures r.Ok? && r.value.Some? && ' ' !in filename ==> r.value.value[..|filename|] == filename
    ensures r.Ok? && r.value.Some? && ' ' in filename ==>
              var i := IndexOf(filename, ' ');
              r.value.value[i] == '_'
              && (forall j :: 0 <= j < |filename| && j != i ==> r.value.value[j] == filename[j])
    ensures r.Ok? && r.value.Some? ==>
              Occurrences(r.value.value, ' ') == Occurrences(filename, ' ') - (if ' ' in filename then 1 else 0)
  {
    if url == "" then Err(MissingUrlMessage)
    else if filename == "" then Ok(None)
    else
      var name := ReplaceFirst(filename, ' ', '_');
      ReplaceFirstRemovesOne(filename, ' ', '_');
      OccurrencesAppend(name, ImageExtension, ' ');
      assert Occurrences(ImageExtension, ' ') == 0;
      assert (name + ImageExtension)[|filename|..] == ImageExtension;
      Ok(Some(name + ImageExtension))
  }

  // ---------------------------------------------------------------------
  // deepMergeObjects
  // ---------------------------------------------------------------------

  /** `v && typeof v === "object"`: a non-null object, the only values that are merged recursively. */
  predicate IsMergeable(v: JsValue)
  {
    Truthy(v) && TypeofObject(v)
  }

  /**
   * The merge of `obj1` into a copy of `obj2`: every key of either map; a key
   * only in `obj2` keeps `obj2`'s value; a key of `obj1` takes `obj1`'s value,
   * except where both values are objects, which are merged recursively.
   */
  function Merged(obj1: map<string, JsValue>, obj2: map<string, JsValue>): (r: map<string, JsValue>)
    decreases Obj(obj1)
  {
    map key | key in obj1.Keys + obj2.Keys ::
      if key !in obj1 then obj2[key]
      else if IsMergeable(obj1[key]) && key in obj2 && IsMergeable(obj2[key])
      then Obj(Merged(obj1[key].fields, obj2[key].fields))
      else obj1[key]
  }

  /**
   * `deepMergeObjects(obj1, obj2)`: with `obj2` null or undefined it is `obj1`
   * itself; otherwise `output` starts as a copy of `obj2` and the loop over
   * `obj1`'s own keys overwrites each key, recursing where both values are objects.
   */
  method DeepMergeObjects(obj1: map<string, JsValue>, obj2: Option<map<string, JsValue>>)
    returns (output: map<string, JsValue>)
    decreases Obj(obj1)
    ensures obj2.None? ==> output == obj1
    ensures obj2.Some? ==> output == Merged(obj1, obj2.value)
    ensures obj2.Some? ==> output.Keys == obj1.Keys + obj2.value.Keys
    ensures obj2.Some? ==> forall key :: key in obj2.value && key !in obj1 ==> output[key] == obj2.value[key]
    ensures forall key :: (key in obj1 && !(obj2.Some? && key in obj2.value && IsMergeable(obj1[key])
                                          && IsMergeable(obj2.value[key])))
                          ==> output[key] == obj1[key]
    ensures obj2.Some? ==>
              forall key :: (key in obj1 && key in obj2.value && IsMergeable(obj1[key]) && IsMergeable(obj2.value[key]))
                            ==> output[key] == Obj(Merged(obj1[key].fields, obj2.value[key].fields))
  {
    if obj2.None? {
      return obj1;
    }
    var second := obj2.value;
    output := second;
    var pending := obj1.Keys;
    while pending != {}
      invariant pending <= obj1.Keys
      invariant output.Keys == second.Keys + (obj1.Keys - pending)
      invariant forall k :: k in output ==> output[k] == (if k in obj1.Keys - pending then Merged(obj1, second)[k] else second[k])
      decreases pending
    {
      var key :| key in pending;
      if IsMergeable(obj1[key]) && key in second && IsMergeable(second[key]) {
        var nested := DeepMergeObjects(obj1[key].fields, Some(second[key].fields));
        output := output[key := Obj(nested)];
      } else {
        output := output[key := obj1[key]];
      }
      pending := pending - {key};
    }
    assert output.Keys == Merged(obj1, second).Keys;
  }

  /** Merging with an empty object gives back `obj1`. */
  lemma MergeWithEmpty(obj1: map<string, JsValue>)
    ensures Merged(obj1, map[]) == obj1
  {
  }

  /** Merging into an empty object gives back `obj2`. */
  lemma MergeIntoEmpty(obj2: map<string, JsValue>)
    ensures Merged(map[], obj2) == obj2
  {
  }

  /** A map merged with itself is itself, at every depth. */
  lemma {:induction false} MergeIdempotent(obj: map<string, JsValue>)
    decreases Obj(obj)
    ensures Merged(obj, obj) == obj
  {
    forall key | key in obj
      ensures Merged(obj, obj)[key] == obj[key]
    {
      if IsMergeable(obj[key]) {
        MergeIdempotent(obj[key].fields);
      }
    }
    assert Merged(obj, obj).Keys == obj.Keys;
  }

  /**
   * Where no key holds objects on both sides, the deep merge is the shallow
   * spread `{ ...obj2, ...obj1 }`: `obj1`'s entries override `obj2`'s.
   */
  lemma ShallowWithoutNestedClash(obj1: map<string, JsValue>, obj2: map<string, JsValue>)
    requires forall key :: key in obj1 && key in obj2 ==> !(IsMergeable(obj1[key]) && IsMergeable(obj2[key]))
    ensures Merged(obj1, obj2) == obj2 + obj1
  {
  }

  /** The value reached in `m` by following the keys of `path` through nested objects. */
  function Lookup(m: map<string, JsValue>, path: seq<string>): Option<JsValue>
    requires path != []
    decreases |path|
  {
    if path[0] !in m then None
    else if |path| == 1 then Some(m[path[0]])
    else if m[path[0]].Obj? then Lookup(m[path[0]].fields, path[1..])
    else None
  }

  /**
   * `obj1` wins at every depth: each value of `obj1` that is not itself a
   * non-null object is found at the same path in the merge.
   */
  lemma {:induction false} Obj1WinsAtEveryDepth(obj1: map<string, JsValue>, obj2: map<string, JsValue>,
                                                 path: seq<string>, v: JsValue)
    requires path != []
    requires Lookup(obj1, path) == Some(v) && !IsMergeable(v)
    ensures Lookup(Merged(obj1, obj2), path) == Some(v)
    decreases |path|
  {
    var key := path[0];
    if |path| > 1 && IsMergeable(obj1[key]) && key in obj2 && IsMergeable(obj2[key]) {
      Obj1WinsAtEveryDepth(obj1[key].fields, obj2[key].fields, path[1..], v);
    }
  }

  /**
   * `obj2`'s values survive below every object shared with `obj1`: if both
   * maps hold non-null objects all along a path's proper prefixes, and `obj1`
   * has nothing at the path itself, the merge has `obj2`'s value there.
   */
  lemma {:induction false} Obj2SurvivesWhereObj1Absent(obj1: map<string, JsValue>, obj2: map<string, JsValue>,
                                                        path: seq<string>, v: JsValue)
    requires path != []
    requires Lookup(obj2, path) == Some(v)
    requires forall i :: 1 <= i < |path| ==> Lookup(obj1, path[..i]).Some? && IsMergeable(Lookup(obj1, path[..i]).value)
    requires forall i :: 1 <= i < |path| ==> Lookup(obj2, path[..i]).Some? && IsMergeable(Lookup(obj2, path[..i]).value)
    requires Lookup(obj1, path).None?
    ensures Lookup(Merged(obj1, obj2), path) == Some(v)
    decreases |path|
  {
    var key := path[0];
    if |path| > 1 {
      assert path[..1] == [key];
      var rest := path[1..];
      assert IsMergeable(obj1[key]) && IsMergeable(obj2[key]);
      forall i | 1 <= i < |rest|
        ensures Lookup(obj1[key].fields, rest[..i]) == Lookup(obj1, path[..i + 1])
        ensures Lookup(obj2[key].fields, rest[..i]) == Lookup(obj2, path[..i + 1])
      {
        assert path[..i + 1][1..] == rest[..i];
      }
      Obj2SurvivesWhereObj1Absent(obj1[key].fields, obj2[key].fields, rest, v);
    }
  }
}
