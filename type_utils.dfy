/**
 * The TypeScript types the hw1 utilities compute with, as values: the
 * primitive types, string literal types, object types (a map from property
 * name to type), unions and `never`.
 */
module TsTypes {

  datatype Ty =
    | StringType
    | NumberType
    | BooleanType
    | Literal(text: string)
    | Object(fields: map<string, Ty>)
    | Union(members: set<Ty>)
    | Never

  /** `A | B | ...` over the types in `s`: `never` drops out and a single member stands alone. */
  ghost function UnionOf(s: set<Ty>): (r: Ty)
    ensures s - {Never} == {} ==> r == Never
    ensures |s - {Never}| == 1 ==> r in s && r != Never
    ensures |s - {Never}| >= 2 ==> r == Union(s - {Never})
  {
    var rest := s - {Never};
    if rest == {} then Never
    else if |rest| == 1 then (var x :| x in rest; x)
    else Union(rest)
  }

  /**
   * `x extends y`: equal types, `never` to anything, a string literal to
   * `string`, a member of a union, and an object type that has every
   * property of `y` with an assignable type.
   */
  predicate Assignable(x: Ty, y: Ty)
    decreases x, y
  {
    if y.Union? then exists m :: m in y.members && Assignable(x, m)
    else if x == y || x == Never then true
    else if x.Literal? then y == StringType
    else if x.Object? && y.Object? then
      forall k :: k in y.fields ==> k in x.fields && Assignable(x.fields[k], y.fields[k])
    else false
  }

  /** A union of one type is that type. */
  lemma UnionOfOne(x: Ty)
    ensures UnionOf({x}) == x
  {
    if x == Never {
      assert {x} - {Never} == {};
    } else {
      assert {x} - {Never} == {x};
    }
  }
}

/** `easy.ts`: `MyPick`, `NOfArray`, `Unshift` and `MyExclude`. */
module TypeUtilsEasy {
  import opened TsTypes

  /** `MyPick<T, K extends keyof T>`: the properties of `t` named in `keys`, with their types. */
  function MyPick(t: map<string, Ty>, keys: set<string>): (r: map<string, Ty>)
    requires keys <= t.Keys
    ensures r.Keys == keys
    ensures forall k :: k in keys ==> r[k] == t[k]
  {
    map k | k in keys :: t[k]
  }

  /** Picking every key gives the object type back; picking twice is picking the smaller set. */
  lemma MyPickLaws(t: map<string, Ty>, a: set<string>, b: set<string>)
    requires b <= a <= t.Keys
    ensures MyPick(t, t.Keys) == t
    ensures MyPick(MyPick(t, a), b) == MyPick(t, b)
  {
    assert MyPick(t, t.Keys).Keys == t.Keys;
  }

  /** `NOfArray<ArrayObj, N>`: the element type at index `n` of a tuple type. */
  function NOfArray(arr: seq<Ty>, n: nat): (r: Ty)
    requires n < |arr|
    ensures r in arr && r == arr[n]
  {
    arr[n]
  }

  /** `Unshift<ArrayType, Elem>`: `[Elem, ...ArrayType]`. */
  function Unshift(arr: seq<Ty>, elem: Ty): (r: seq<Ty>)
    ensures |r| == |arr| + 1
    ensures r[0] == elem && r[1..] == arr
  {
    [elem] + arr
  }

  /** After `Unshift`, index 0 is the new element and every old index moves up by one. */
  lemma UnshiftMovesIndices(arr: seq<Ty>, elem: Ty)
    ensures NOfArray(Unshift(arr, elem), 0) == elem
    ensures forall n :: 0 <= n < |arr| ==> NOfArray(Unshift(arr, elem), n + 1) == NOfArray(arr, n)
  {
    var r := Unshift(arr, elem);
    forall n | 0 <= n < |arr| ensures r[n + 1] == arr[n] {
      assert r[1..][n] == arr[n];
    }
  }

  /** `MyExclude<T, U>` over the members of the union `t`: the members not assignable to `u`. */
  function MyExclude(t: set<Ty>, u: Ty): (r: set<Ty>)
    ensures r <= t
    ensures forall x :: x in t ==> (x in r <==> !Assignable(x, u))
  {
    set x | x in t && !Assignable(x, u)
  }

  /** Excluding twice is excluding once, and what is excluded is exactly the assignable part. */
  lemma MyExcludeLaws(t: set<Ty>, u: Ty)
    ensures MyExclude(MyExclude(t, u), u) == MyExclude(t, u)
    ensures MyExclude(t, u) + (set x | x in t && Assignable(x, u)) == t
  {
  }

  /** The checks in `easy.ts`. */
  lemma EasyExamples()
    ensures MyPick(map["name" := StringType, "age" := NumberType, "location" := StringType], {"name", "age"})
      == map["name" := StringType, "age" := NumberType]
    ensures NOfArray([StringType, NumberType, BooleanType], 2) == BooleanType
    ensures Unshift([NumberType, BooleanType], StringType) == [StringType, NumberType, BooleanType]
    ensures MyExclude({Literal("a"), Literal("b"), Literal("c")}, Union({Literal("a"), Literal("c")}))
      == {Literal("b")}
  {
    PickExample(map["name" := StringType, "age" := NumberType, "location" := StringType], {"name", "age"},
      map["name" := StringType, "age" := NumberType]);
    UnshiftExample([NumberType, BooleanType], [StringType, NumberType, BooleanType]);
    ExcludeExample({Literal("a"), Literal("b"), Literal("c")}, Union({Literal("a"), Literal("c")}));
  }

  lemma PickExample(t: map<string, Ty>, keys: set<string>, r: map<string, Ty>)
    requires t == map["name" := StringType, "age" := NumberType, "location" := StringType]
    requires keys == {"name", "age"} && r == map["name" := StringType, "age" := NumberType]
    ensures MyPick(t, keys) == r
  {
    assert MyPick(t, keys).Keys == r.Keys;
  }

  lemma UnshiftExample(arr: seq<Ty>, r: seq<Ty>)
    requires arr == [NumberType, BooleanType] && r == [StringType, NumberType, BooleanType]
    ensures Unshift(arr, StringType) == r
  {
  }

  lemma ExcludeExample(t: set<Ty>, u: Ty)
    requires t == {Literal("a"), Literal("b"), Literal("c")} && u == Union({Literal("a"), Literal("c")})
    ensures MyExclude(t, u) == {Literal("b")}
  {
    assert Assignable(Literal("a"), u) by { assert Assignable(Literal("a"), Literal("a")); }
    assert Assignable(Literal("c"), u) by { assert Assignable(Literal("c"), Literal("c")); }
    assert !Assignable(Literal("b"), u) by {
      assert !Assignable(Literal("b"), Literal("a"));
      assert !Assignable(Literal("b"), Literal("c"));
    }
  }
}

/** `medium.ts`: `MyCapitalize` and `ParseURLParams`. */
module TypeUtilsMedium {
  import opened Common
  import opened Text

  /** `MyCapitalize<T>`: the first character upper-cased (ASCII letters only), the rest kept. */
  function MyCapitalize(s: string): (r: string)
    ensures |r| == |s|
    ensures s != [] ==> r[0] == UpperChar(s[0]) && r[1..] == s[1..]
  {
    if s == [] then s else [UpperChar(s[0])] + s[1..]
  }

  /** Capitalising a capitalised string changes nothing. */
  lemma MyCapitalizeIdempotent(s: string)
    ensures MyCapitalize(MyCapitalize(s)) == MyCapitalize(s)
  {
    if s != [] {
      var r := MyCapitalize(s);
      assert r == [UpperChar(s[0])] + s[1..];
      assert UpperChar(UpperChar(s[0])) == UpperChar(s[0]);
    }
  }

  lemma MyCapitalizeExample()
    ensures MyCapitalize("hello") == "Hello"
  {
  }

  /** The first index `i >= from` where `c` stands in `s`. */
  function IndexOfChar(s: string, c: char, from: nat): (r: Option<nat>)
    ensures r.Some? ==> from <= r.value < |s| && s[r.value] == c
    ensures r.Some? ==> forall j :: from <= j < r.value ==> s[j] != c
    ensures r.None? ==> forall j :: from <= j < |s| ==> s[j] != c
    decreases |s| - from
  {
    if from >= |s| then None
    else if s[from] == c then Some(from)
    else IndexOfChar(s, c, from + 1)
  }

  /** Pins `IndexOfChar` down from the characters of `s`. */
  lemma IndexOfCharIs(s: string, c: char, from: nat, r: Option<nat>)
    requires r.Some? ==> from <= r.value < |s| && s[r.value] == c
    requires forall j :: from <= j < (if r.Some? then r.value else |s|) ==> s[j] != c
    ensures IndexOfChar(s, c, from) == r
  {
  }

  /** The first index `i >= from` where `needle` starts in `s`. */
  function IndexOf(s: string, needle: string, from: nat): (r: Option<nat>)
    ensures r.Some? ==> from <= r.value && OccursAt(s, needle, r.value)
    ensures r.Some? ==> forall j :: from <= j < r.value ==> !OccursAt(s, needle, j)
    ensures r.None? ==> forall j :: from <= j ==> !OccursAt(s, needle, j)
    decreases |s| - from
  {
    if from + |needle| > |s| then None
    else if s[from..from + |needle|] == needle then Some(from)
    else IndexOf(s, needle, from + 1)
  }

  /** `` `${infer Prefix}:${infer Param}` ``: everything after the first ':', if there is one. */
  function AfterColon(s: string): (r: set<string>)
    ensures ':' !in s <==> r == {}
  {
    match IndexOfChar(s, ':', 0)
    case Some(k) => {s[k + 1..]}
    case None => {}
  }

  /**
   * `ParseURLParams<S>` as written. Each `infer` takes the shortest text
   * up to the next delimiter: the text between the first "/:" and the next
   * '/', then the params of the rest; when that fails, everything after the
   * first ':'.
   */
  function ParseURLParams(s: string): set<string>
    decreases |s|
  {
    match IndexOf(s, "/:", 0)
    case Some(i) => ParseURLParamsFrom(s, i)
    case None => AfterColon(s)
  }

  /** The first rule from the "/:" at `i` on, falling back to the second. */
  function ParseURLParamsFrom(s: string, i: nat): set<string>
    requires i + 2 <= |s|
    decreases |s|, 0
  {
    match IndexOfChar(s, '/', i + 2)
    case Some(j) => {s[i + 2..j]} + ParseURLParams(s[j + 1..])
    case None => AfterColon(s)
  }

  /** A path without ':' has no params. */
  lemma {:induction false} ParseURLParamsNeedColon(s: string)
    requires ':' !in s
    ensures ParseURLParams(s) == {}
  {
    forall i: nat ensures !OccursAt(s, "/:", i) {
      if i + 2 <= |s| {
        assert s[i..i + 2][1] == s[i + 1];
      }
    }
  }

  /** Pins `IndexOf` down from the text of `s`. */
  lemma IndexOfIs(s: string, needle: string, from: nat, i: nat)
    requires from <= i && OccursAt(s, needle, i)
    requires forall j :: from <= j < i ==> !OccursAt(s, needle, j)
    ensures IndexOf(s, needle, from) == Some(i)
  {
  }

  /** The route of the `ParseURLParams` check. */
  const ExampleRoute: string := "posts/:id/:user/:comment"

  /** One step of the first rule: a param, then the params of the rest. */
  lemma ParseStep(s: string, i: nat, j: nat)
    requires IndexOf(s, "/:", 0) == Some(i) && IndexOfChar(s, '/', i + 2) == Some(j)
    ensures ParseURLParams(s) == {s[i + 2..j]} + ParseURLParams(s[j + 1..])
  {
    ParseFirstRule(s, i);
    ParseFromStep(s, i, j);
  }

  lemma ParseFirstRule(s: string, i: nat)
    requires IndexOf(s, "/:", 0) == Some(i)
    ensures i + 2 <= |s| && ParseURLParams(s) == ParseURLParamsFrom(s, i)
  {
  }

  lemma ParseFromStep(s: string, i: nat, j: nat)
    requires i + 2 <= |s| && IndexOfChar(s, '/', i + 2) == Some(j)
    ensures ParseURLParamsFrom(s, i) == {s[i + 2..j]} + ParseURLParams(s[j + 1..])
  {
  }

  /** The first rule fails after its "/:": the second rule decides. */
  lemma ParseFallback(s: string, i: nat)
    requires IndexOf(s, "/:", 0) == Some(i) && IndexOfChar(s, '/', i + 2) == None
    ensures ParseURLParams(s) == AfterColon(s)
  {
  }

  /**
   * For 'posts/:id/:user/:comment' the written rules give 'id' and
   * 'user/:comment', not 'id' | 'user' | 'comment': the second "/:" match
   * finds no '/' after it and the fallback takes all the text after ':'.
   */
  lemma ParseURLParamsExample(s: string)
    requires s == ExampleRoute
    ensures ParseURLParams(s) == {"id", "user/:comment"}
    ensures "id" in ParseURLParams(s)
    ensures exists p :: p in ParseURLParams(s) && '/' in p
  {
    RouteText(s);
    ParseFirstParam(s);
    ParseLastParam(s[10..]);
    var p := s[10..][1..];
    assert p in ParseURLParams(s) && p[4] == '/';
  }

  /** The pieces of the example route. */
  lemma RouteText(s: string)
    requires s == ExampleRoute
    ensures s[7..9] == "id" && s[10..] == ":user/:comment"
    ensures s[10..][1..5] == "user" && s[10..][6..] == ":comment"
    ensures s[10..][1..] == "user/:comment" && s[10..][6..][1..] == "comment"
  {
    RestText(s[10..]);
  }

  lemma RestText(rest: string)
    requires rest == ":user/:comment"
    ensures rest[1..5] == "user" && rest[6..] == ":comment"
    ensures rest[1..] == "user/:comment" && rest[6..][1..] == "comment"
  {
  }

  /** The characters of the example route up to its second '/'. */
  lemma RouteChars(s: string)
    requires s == ExampleRoute
    ensures |s| == 24
    ensures forall j :: 0 <= j < 5 ==> s[j] != '/'
    ensures s[5] == '/' && s[6] == ':' && s[7] == 'i' && s[8] == 'd' && s[9] == '/'
  {
  }

  lemma FirstSlashColon(s: string)
    requires s == ExampleRoute
    ensures IndexOf(s, "/:", 0) == Some(5)
  {
    RouteChars(s);
    forall j | 0 <= j < 5 ensures !OccursAt(s, "/:", j) {
      assert s[j] != '/';
      assert s[j..j + 2][0] == s[j];
    }
    assert s[5] == '/' && s[6] == ':';
    assert s[5..7] == "/:";
    IndexOfIs(s, "/:", 0, 5);
  }

  lemma ParseFirstParam(s: string)
    requires s == ExampleRoute
    ensures ParseURLParams(s) == {s[7..9]} + ParseURLParams(s[10..])
  {
    FirstSlashColon(s);
    RouteChars(s);
    IndexOfCharIs(s, '/', 7, Some(9));
    ParseStep(s, 5, 9);
  }

  lemma RestSlashColon(rest: string)
    requires rest == ":user/:comment"
    ensures IndexOf(rest, "/:", 0) == Some(5)
  {
    forall j | 0 <= j < 5 ensures !OccursAt(rest, "/:", j) {
      assert rest[j] != '/';
      assert rest[j..j + 2][0] == rest[j];
    }
    assert rest[5..7] == "/:";
    IndexOfIs(rest, "/:", 0, 5);
  }

  lemma ParseLastParam(rest: string)
    requires rest == ":user/:comment"
    ensures ParseURLParams(rest) == {rest[1..]}
  {
    RestSlashColon(rest);
    IndexOfCharIs(rest, '/', 7, None);
    ParseFallback(rest, 5);
    IndexOfCharIs(rest, ':', 0, Some(0));
  }

  /**
   * The rules the comment at medium.ts:42 expects: the text between each
   * ':' and the next '/', and the text after the last ':' when no '/'
   * follows it.
   */
  function RouteParams(s: string): set<string>
    decreases |s|
  {
    match IndexOfChar(s, ':', 0)
    case None => {}
    case Some(k) => RouteParamsFrom(s, k)
  }

  /** The params from the ':' at `k` on. */
  function RouteParamsFrom(s: string, k: nat): set<string>
    requires k < |s|
    decreases |s|, 0
  {
    match IndexOfChar(s, '/', k + 1)
    case Some(j) => {s[k + 1..j]} + RouteParams(s[j + 1..])
    case None => {s[k + 1..]}
  }

  /** Under the corrected rules no param holds a '/', and a path without ':' has none. */
  lemma {:induction false} RouteParamsHaveNoSlash(s: string)
    ensures forall p :: p in RouteParams(s) ==> '/' !in p
    ensures ':' !in s ==> RouteParams(s) == {}
    decreases |s|
  {
    match IndexOfChar(s, ':', 0)
    case None =>
    case Some(k) =>
      match IndexOfChar(s, '/', k + 1)
      case Some(j) =>
        var p := s[k + 1..j];
        assert forall x :: 0 <= x < |p| ==> p[x] == s[k + 1 + x];
        RouteParamsHaveNoSlash(s[j + 1..]);
      case None =>
        var p := s[k + 1..];
        assert forall x :: 0 <= x < |p| ==> p[x] == s[k + 1 + x];
  }

  /** One step of the corrected rules: a param, then the params of the rest. */
  lemma RouteStep(s: string, k: nat, j: nat)
    requires IndexOfChar(s, ':', 0) == Some(k) && IndexOfChar(s, '/', k + 1) == Some(j)
    ensures RouteParams(s) == {s[k + 1..j]} + RouteParams(s[j + 1..])
  {
    RouteFirstRule(s, k);
    RouteFromStep(s, k, j);
  }

  lemma RouteFirstRule(s: string, k: nat)
    requires IndexOfChar(s, ':', 0) == Some(k)
    ensures k < |s| && RouteParams(s) == RouteParamsFrom(s, k)
  {
  }

  lemma RouteFromStep(s: string, k: nat, j: nat)
    requires k < |s| && IndexOfChar(s, '/', k + 1) == Some(j)
    ensures RouteParamsFrom(s, k) == {s[k + 1..j]} + RouteParams(s[j + 1..])
  {
  }

  lemma RouteParamsExample(s: string)
    requires s == ExampleRoute
    ensures RouteParams(s) == {"id", "user", "comment"}
  {
    RouteText(s);
    RouteFirstParam(s);
    RouteSecondParam(s[10..]);
    RouteLastParam(s[10..][6..]);
  }

  lemma RouteFirstParam(s: string)
    requires s == ExampleRoute
    ensures RouteParams(s) == {s[7..9]} + RouteParams(s[10..])
  {
    IndexOfCharIs(s, ':', 0, Some(6));
    IndexOfCharIs(s, '/', 7, Some(9));
    RouteStep(s, 6, 9);
  }

  lemma RouteSecondParam(s: string)
    requires s == ":user/:comment"
    ensures RouteParams(s) == {s[1..5]} + RouteParams(s[6..])
  {
    IndexOfCharIs(s, ':', 0, Some(0));
    IndexOfCharIs(s, '/', 1, Some(5));
    RouteStep(s, 0, 5);
  }

  lemma RouteLastParam(s: string)
    requires s == ":comment"
    ensures RouteParams(s) == {s[1..]}
  {
    IndexOfCharIs(s, ':', 0, Some(0));
    IndexOfCharIs(s, '/', 1, None);
  }
}

/** `hard.ts`: `CamelCase`, `Camelize` and `DeepPick`. */
module TypeUtilsHard {
  import opened Common
  import opened Text
  import opened TsTypes
  import opened TypeUtilsMedium

  /**
   * `CamelCase<S>`: the text before the first '_', then the capitalised
   * `CamelCase` of the text after it. `Capitalize` behaves as `MyCapitalize`.
   */
  function CamelCase(s: string): string
    decreases |s|
  {
    match IndexOfChar(s, '_', 0)
    case None => s
    case Some(i) => s[..i] + MyCapitalize(CamelCase(s[i + 1..]))
  }

  /**
   * The camel case of a name has no '_' left, is shorter by the number of
   * '_' it removed, and a name without '_' is its own camel case.
   */
  lemma {:induction false} CamelCaseLaws(s: string)
    ensures '_' !in CamelCase(s)
    ensures |CamelCase(s)| == |s| - multiset(s)['_']
    ensures '_' !in s ==> CamelCase(s) == s
    decreases |s|
  {
    match IndexOfChar(s, '_', 0)
    case None =>
      assert multiset(s)['_'] == 0;
    case Some(i) =>
      var head, rest := s[..i], s[i + 1..];
      CamelCaseLaws(rest);
      UnderscoreSplit(s, i);
      CapitalizeKeepsNoUnderscore(CamelCase(rest));
      assert CamelCase(s) == head + MyCapitalize(CamelCase(rest));
  }

  /** Splitting at the first '_': nothing before it is '_', and the count drops by one. */
  lemma UnderscoreSplit(s: string, i: nat)
    requires IndexOfChar(s, '_', 0) == Some(i)
    ensures '_' !in s[..i]
    ensures multiset(s)['_'] == multiset(s[i + 1..])['_'] + 1
  {
    assert s == s[..i] + [s[i]] + s[i + 1..];
    assert multiset(s) == multiset(s[..i]) + multiset([s[i]]) + multiset(s[i + 1..]);
    assert multiset(s[..i])['_'] == 0;
  }

  /** Capitalising introduces no '_'. */
  lemma CapitalizeKeepsNoUnderscore(t: string)
    requires '_' !in t
    ensures '_' !in MyCapitalize(t)
  {
    if t != [] {
      var r := MyCapitalize(t);
      assert r == [r[0]] + t[1..];
      assert t[0] in t;
      assert forall c :: c in t[1..] ==> c in t;
    }
  }

  /** A camel-cased name is its own camel case. */
  lemma CamelCaseIdempotent(s: string)
    ensures CamelCase(CamelCase(s)) == CamelCase(s)
  {
    CamelCaseLaws(s);
    CamelCaseLaws(CamelCase(s));
  }

  /** The keys `Camelize` produces. */
  function CamelKeys(keys: set<string>): set<string>
  {
    set k | k in keys :: CamelCase(k)
  }

  /** The source properties that a camel-cased key `k` comes from. */
  function SourcesOf(keys: set<string>, k: string): set<string>
  {
    set j | j in keys && CamelCase(j) == k
  }

  /**
   * `Camelize<T>`: every key renamed with `CamelCase`, object-valued
   * properties camelized in turn, other types kept. Keys that collapse to
   * the same name get the union of their types. A type that is not an
   * object type is returned as it is.
   */
  ghost function Camelize(t: Ty): (r: Ty)
    ensures t.Object? ==> r.Object? && r.fields.Keys == CamelKeys(t.fields.Keys)
    ensures !t.Object? ==> r == t
    decreases t, 1
  {
    match t
    case Object(f) => Object(map k | k in CamelKeys(f.Keys) :: UnionOf(CamelizedSources(f, k)))
    case _ => t
  }

  /** The camelized types of the properties that camel-case to `k`. */
  ghost function CamelizedSources(f: map<string, Ty>, k: string): set<Ty>
    decreases Object(f), 0
  {
    set j | j in SourcesOf(f.Keys, k) :: Camelize(f[j])
  }

  /** A key that no other key collides with keeps its (camelized) type under its camel-cased name. */
  lemma CamelizeRenames(f: map<string, Ty>, key: string)
    requires key in f
    requires forall j :: j in f && CamelCase(j) == CamelCase(key) ==> j == key
    ensures CamelCase(key) in Camelize(Object(f)).fields
    ensures Camelize(Object(f)).fields[CamelCase(key)] == Camelize(f[key])
  {
    var k := CamelCase(key);
    assert SourcesOf(f.Keys, k) == {key};
    OneSource(f, key, k);
    UnionOfOne(Camelize(f[key]));
    CamelizeAt(f, k);
  }

  lemma OneSource(f: map<string, Ty>, key: string, k: string)
    requires key in f && SourcesOf(f.Keys, k) == {key}
    ensures k in CamelKeys(f.Keys)
    ensures CamelizedSources(f, k) == {Camelize(f[key])}
  {
    SourceIsMerged(f, k, key);
    MergedHasSource(f, k);
  }

  /** `a_b`, for `a` and `b` without '_', becomes `a` followed by `b` capitalised. */
  lemma CamelCaseOneUnderscore(a: string, b: string)
    requires '_' !in a && '_' !in b
    ensures CamelCase(a + "_" + b) == a + MyCapitalize(b)
  {
    var s := a + "_" + b;
    assert s[|a|] == '_';
    assert forall j :: 0 <= j < |a| ==> s[j] == a[j];
    IndexOfCharIs(s, '_', 0, Some(|a|));
    assert s[..|a|] == a;
    assert s[|a| + 1..] == b;
    CamelCaseLaws(b);
  }

  lemma CamelCaseJoin(s: string, a: string, b: string, r: string)
    requires s == a + "_" + b && '_' !in a && '_' !in b
    requires r == a + MyCapitalize(b)
    ensures CamelCase(s) == r
  {
    CamelCaseOneUnderscore(a, b);
  }

  /** The type `Camelize` gives a camel-cased key: the union of the camelized types of its sources. */
  lemma CamelizeAt(f: map<string, Ty>, k: string)
    requires k in CamelKeys(f.Keys)
    ensures k in Camelize(Object(f)).fields
    ensures Camelize(Object(f)).fields[k] == UnionOf(CamelizedSources(f, k))
  {
  }

  lemma CamelKeysOfTwo(x: string, y: string)
    ensures CamelKeys({x, y}) == {CamelCase(x), CamelCase(y)}
  {
  }

  lemma CamelKeysOfThree(x: string, y: string, z: string)
    ensures CamelKeys({x, y, z}) == {CamelCase(x), CamelCase(y), CamelCase(z)}
  {
    CamelKeysOfTwo(x, y);
    assert {x, y, z} == {x, y} + {z};
    CamelKeysUnion({x, y}, {z});
  }

  lemma CamelKeysUnion(a: set<string>, b: set<string>)
    ensures CamelKeys(a + b) == CamelKeys(a) + CamelKeys(b)
  {
  }

  /** Two distinct types, neither `never`, form a two-member union. */
  lemma UnionOfTwo(x: Ty, y: Ty)
    requires x != y && x != Never && y != Never
    ensures UnionOf({x, y}) == Union({x, y})
  {
    assert {x, y} - {Never} == {x, y};
  }

  /**
   * Two keys that camel-case to the same name leave one key whose type is
   * the union of their camelized types.
   */
  lemma CamelizeMerges(f: map<string, Ty>, x: string, y: string)
    requires f.Keys == {x, y} && CamelCase(x) == CamelCase(y)
    requires Camelize(f[x]) != Camelize(f[y]) && Camelize(f[x]) != Never && Camelize(f[y]) != Never
    ensures Camelize(Object(f)) == Object(map[CamelCase(x) := Union({Camelize(f[x]), Camelize(f[y])})])
  {
    var k := CamelCase(x);
    CollidingSources(f, x, y, k);
    UnionOfTwo(Camelize(f[x]), Camelize(f[y]));
    CamelizeAt(f, k);
    MapOfOneKey(Camelize(Object(f)).fields, k, Union({Camelize(f[x]), Camelize(f[y])}));
  }

  lemma MapOfOneKey<K, V>(m: map<K, V>, k: K, v: V)
    requires m.Keys == {k} && m[k] == v
    ensures m == map[k := v]
  {
  }

  /** 'a_b' and 'aB' both become 'aB', so their types merge into a union. */
  lemma CamelizeCollision(f: map<string, Ty>)
    requires f == map["a_b" := StringType, "aB" := NumberType]
    ensures Camelize(Object(f)) == Object(map["aB" := Union({StringType, NumberType})])
  {
    CollidingKeys();
    assert f.Keys == {"a_b", "aB"} && f["a_b"] == StringType && f["aB"] == NumberType;
    CamelizeMerges(f, "a_b", "aB");
  }

  lemma CollidingSources(f: map<string, Ty>, x: string, y: string, k: string)
    requires f.Keys == {x, y} && CamelCase(x) == k && CamelCase(y) == k
    ensures CamelKeys(f.Keys) == {k}
    ensures CamelizedSources(f, k) == {Camelize(f[x]), Camelize(f[y])}
  {
    CamelKeysOfTwo(x, y);
    assert SourcesOf(f.Keys, k) == {x, y};
    CamelizedSourcesOfTwo(f, x, y, k);
  }

  lemma CamelizedSourcesOfTwo(f: map<string, Ty>, x: string, y: string, k: string)
    requires SourcesOf(f.Keys, k) == {x, y} && x in f && y in f
    ensures CamelizedSources(f, k) == {Camelize(f[x]), Camelize(f[y])}
  {
    SourceIsMerged(f, k, x);
    SourceIsMerged(f, k, y);
    MergedHasSource(f, k);
  }

  lemma SourceIsMerged(f: map<string, Ty>, k: string, j: string)
    requires j in SourcesOf(f.Keys, k)
    ensures Camelize(f[j]) in CamelizedSources(f, k)
  {
  }

  lemma MergedHasSource(f: map<string, Ty>, k: string)
    ensures forall v :: v in CamelizedSources(f, k) ==>
      exists j :: j in SourcesOf(f.Keys, k) && v == Camelize(f[j])
  {
  }

  lemma CollidingKeys()
    ensures CamelCase("a_b") == "aB" && CamelCase("aB") == "aB"
  {
    CamelCaseJoin("a_b", "a", "b", "aB");
    assert '_' !in "aB";
    CamelCaseLaws("aB");
  }

  /** The object types of the `Camelize` check. */
  const AddressDetails := Object(map["street_name" := StringType, "zip_code" := NumberType])
  const SnakeCaseObj := Object(map["first_name" := StringType, "last_name" := StringType,
                                   "address_details" := AddressDetails])

  lemma CamelCaseExamples()
    ensures CamelCase("first_name") == "firstName"
    ensures CamelCase("last_name") == "lastName"
    ensures CamelCase("address_details") == "addressDetails"
    ensures CamelCase("street_name") == "streetName"
    ensures CamelCase("zip_code") == "zipCode"
  {
    CamelCaseFirstName();
    CamelCaseLastName();
    CamelCaseAddressDetails();
    CamelCaseStreetName();
    CamelCaseZipCode();
  }

  lemma CamelCaseFirstName()
    ensures CamelCase("first_name") == "firstName"
  {
    CamelCaseJoin("first_name", "first", "name", "firstName");
  }

  lemma CamelCaseLastName()
    ensures CamelCase("last_name") == "lastName"
  {
    CamelCaseJoin("last_name", "last", "name", "lastName");
  }

  lemma CamelCaseAddressDetails()
    ensures CamelCase("address_details") == "addressDetails"
  {
    CamelCaseJoin("address_details", "address", "details", "addressDetails");
  }

  lemma CamelCaseStreetName()
    ensures CamelCase("street_name") == "streetName"
  {
    CamelCaseJoin("street_name", "street", "name", "streetName");
  }

  lemma CamelCaseZipCode()
    ensures CamelCase("zip_code") == "zipCode"
  {
    CamelCaseJoin("zip_code", "zip", "code", "zipCode");
  }

  const CamelAddressDetails := Object(map["streetName" := StringType, "zipCode" := NumberType])

  lemma MapOfTwoKeys<K, V>(m: map<K, V>, k1: K, v1: V, k2: K, v2: V)
    requires m.Keys == {k1, k2} && m[k1] == v1 && m[k2] == v2
    ensures m == map[k1 := v1, k2 := v2]
  {
  }

  lemma MapOfThreeKeys<K, V>(m: map<K, V>, k1: K, v1: V, k2: K, v2: V, k3: K, v3: V)
    requires m.Keys == {k1, k2, k3} && m[k1] == v1 && m[k2] == v2 && m[k3] == v3
    ensures m == map[k1 := v1, k2 := v2, k3 := v3]
  {
  }

  /** Two keys that camel-case apart are renamed independently. */
  lemma CamelizeTwoKeys(f: map<string, Ty>, x: string, y: string, r: map<string, Ty>)
    requires f.Keys == {x, y} && CamelCase(x) != CamelCase(y)
    requires r == map[CamelCase(x) := Camelize(f[x]), CamelCase(y) := Camelize(f[y])]
    ensures Camelize(Object(f)) == Object(r)
  {
    Uncollided(f, x);
    Uncollided(f, y);
    CamelizeRenames(f, x);
    CamelizeRenames(f, y);
    CamelKeysOfTwo(x, y);
    MapOfTwoKeys(Camelize(Object(f)).fields, CamelCase(x), Camelize(f[x]), CamelCase(y), Camelize(f[y]));
  }

  /** Three keys that camel-case apart are renamed independently. */
  lemma CamelizeThreeKeys(f: map<string, Ty>, x: string, y: string, z: string, r: map<string, Ty>)
    requires f.Keys == {x, y, z}
    requires CamelCase(x) != CamelCase(y) && CamelCase(y) != CamelCase(z) && CamelCase(x) != CamelCase(z)
    requires r == map[CamelCase(x) := Camelize(f[x]), CamelCase(y) := Camelize(f[y]), CamelCase(z) := Camelize(f[z])]
    ensures Camelize(Object(f)) == Object(r)
  {
    var c := Camelize(Object(f)).fields;
    Uncollided(f, x);
    Uncollided(f, y);
    Uncollided(f, z);
    CamelizeRenames(f, x);
    CamelizeRenames(f, y);
    CamelizeRenames(f, z);
    CamelKeysOfThree(x, y, z);
    MapOfThreeKeys(c, CamelCase(x), Camelize(f[x]), CamelCase(y), Camelize(f[y]), CamelCase(z), Camelize(f[z]));
  }

  /** A key whose camel case differs from that of every other key collides with none. */
  lemma Uncollided(f: map<string, Ty>, key: string)
    requires key in f && forall j :: j in f && j != key ==> CamelCase(j) != CamelCase(key)
    ensures forall j :: j in f && CamelCase(j) == CamelCase(key) ==> j == key
  {
  }

  lemma CamelizeAddressDetails()
    ensures Camelize(AddressDetails) == CamelAddressDetails
  {
    AddressDetailsRenames(AddressDetails.fields, CamelAddressDetails.fields);
  }

  lemma AddressDetailsRenames(f: map<string, Ty>, r: map<string, Ty>)
    requires f == AddressDetails.fields && r == CamelAddressDetails.fields
    ensures Camelize(Object(f)) == Object(r)
  {
    AddressDetailsFields(f, r);
    CamelCaseStreetName();
    CamelCaseZipCode();
    assert "streetName"[0] != "zipCode"[0];
    CamelizeTwoKeys(f, "street_name", "zip_code", r);
  }

  lemma AddressDetailsFields(f: map<string, Ty>, r: map<string, Ty>)
    requires f == AddressDetails.fields && r == CamelAddressDetails.fields
    ensures f.Keys == {"street_name", "zip_code"}
    ensures f["street_name"] == StringType && f["zip_code"] == NumberType
    ensures r == map["streetName" := StringType, "zipCode" := NumberType]
  {
  }

  /** The `Camelize` check in `hard.ts`. */
  lemma CamelizeExample()
    ensures Camelize(SnakeCaseObj) == Object(map[
      "firstName" := StringType, "lastName" := StringType, "addressDetails" := CamelAddressDetails])
  {
    var r := map["firstName" := StringType, "lastName" := StringType, "addressDetails" := CamelAddressDetails];
    SnakeCaseRenames(SnakeCaseObj.fields, r);
  }

  lemma SnakeCaseRenames(f: map<string, Ty>, r: map<string, Ty>)
    requires f == SnakeCaseObj.fields
    requires r == map["firstName" := StringType, "lastName" := StringType, "addressDetails" := CamelAddressDetails]
    ensures Camelize(Object(f)) == Object(r)
  {
    SnakeCaseFields(f);
    CamelCaseFirstName();
    CamelCaseLastName();
    CamelCaseAddressDetails();
    CamelizeAddressDetails();
    CamelizeThreeKeys(f, "first_name", "last_name", "address_details", r);
  }

  lemma SnakeCaseFields(f: map<string, Ty>)
    requires f == SnakeCaseObj.fields
    ensures f.Keys == {"first_name", "last_name", "address_details"}
    ensures f["first_name"] == StringType && f["last_name"] == StringType && f["address_details"] == AddressDetails
  {
  }

  /** The part of a path before its first '.', the key `DeepPick` gives it. */
  function KeyOf(path: string): (r: string)
    ensures |r| <= |path|
    ensures '.' !in path ==> r == path
  {
    match IndexOfChar(path, '.', 0)
    case Some(i) => path[..i]
    case None => path
  }

  /**
   * The type `DeepPick` gives the key of one path: for a dotted path, the
   * one-path `DeepPick` of the object-typed property before the '.'; for a
   * plain path, the property's type; `never` when the property is missing
   * or, for a dotted path, not an object type.
   */
  function PickValue(t: Ty, path: string): (r: Ty)
    ensures '.' !in path ==> r == (if t.Object? && path in t.fields then t.fields[path] else Never)
    decreases |path|
  {
    match IndexOfChar(path, '.', 0)
    case Some(i) =>
      var param, other := path[..i], path[i + 1..];
      if t.Object? && param in t.fields && t.fields[param].Object? then
        Object(map[KeyOf(other) := PickValue(t.fields[param], other)])
      else Never
    case None => if t.Object? && path in t.fields then t.fields[path] else Never
  }

  /**
   * A dotted path `k.rest` picks `rest` inside the object-typed property
   * `k` and nests the result under `rest`'s own head key; a missing or
   * non-object property gives `never`.
   */
  lemma PickValueDotted(t: Ty, k: string, rest: string)
    requires '.' !in k
    ensures KeyOf(k + "." + rest) == k
    ensures PickValue(t, k + "." + rest) ==
      if t.Object? && k in t.fields && t.fields[k].Object? then
        Object(map[KeyOf(rest) := PickValue(t.fields[k], rest)])
      else Never
  {
    var path := k + "." + rest;
    assert path[..|k|] == k && path[|k| + 1..] == rest;
    IndexOfCharIs(path, '.', 0, Some(|k|));
  }

  function KeysOf(paths: set<string>): set<string>
  {
    set p | p in paths :: KeyOf(p)
  }

  function PathsUnder(paths: set<string>, k: string): set<string>
  {
    set p | p in paths && KeyOf(p) == k
  }

  /**
   * `DeepPick<T, Paths>`: one key per path head; paths that share a head
   * give that key the union of their types.
   */
  ghost function DeepPick(t: Ty, paths: set<string>): (r: Ty)
    ensures r.Object? && r.fields.Keys == KeysOf(paths)
  {
    Object(map k | k in KeysOf(paths) :: UnionOf(PickedSources(t, paths, k)))
  }

  /** The types of the paths whose head is `k`. */
  function PickedSources(t: Ty, paths: set<string>, k: string): set<Ty>
  {
    set p | p in PathsUnder(paths, k) :: PickValue(t, p)
  }

  /** With one path, `DeepPick` is one key holding `PickValue`. */
  lemma DeepPickOnePath(t: Ty, path: string)
    ensures DeepPick(t, {path}) == Object(map[KeyOf(path) := PickValue(t, path)])
  {
    var k, v := KeyOf(path), PickValue(t, path);
    OnePathSources(t, path);
    UnionOfOne(v);
    var m := DeepPick(t, {path}).fields;
    assert m.Keys == {k};
    assert m[k] == UnionOf(PickedSources(t, {path}, k));
    MapOfOneKey(m, k, v);
  }

  lemma OnePathSources(t: Ty, path: string)
    ensures KeysOf({path}) == {KeyOf(path)}
    ensures PickedSources(t, {path}, KeyOf(path)) == {PickValue(t, path)}
  {
    assert PathsUnder({path}, KeyOf(path)) == {path};
  }

  /** A plain path keeps the property with its type exactly when the property exists. */
  lemma DeepPickPlainPath(t: Ty, key: string)
    requires t.Object? && key in t.fields && t.fields[key] != Never
    requires '.' !in key
    ensures DeepPick(t, {key}) == Object(map[key := t.fields[key]])
  {
    DeepPickOnePath(t, key);
  }

  /** The object type of the `DeepPick` check. */
  const Details := Object(map["name" := StringType, "age" := NumberType])
  const NestedObject := Object(map["user" := Object(map["id" := NumberType, "details" := Details])])

  /** The `DeepPick` check in `hard.ts`: 'user.details.name' keeps just that chain. */
  lemma DeepPickExample()
    ensures DeepPick(NestedObject, {"user.details.name"})
      == Object(map["user" := Object(map["details" := Object(map["name" := StringType])])])
  {
    var path := "user.details.name";
    PickUser(path);
    DeepPickOnePath(NestedObject, path);
  }

  lemma PickDetails(other: string)
    requires other == "details.name"
    ensures KeyOf(other) == "details"
    ensures PickValue(NestedObject.fields["user"], other) == Object(map["name" := StringType])
  {
    assert forall j :: 0 <= j < 7 ==> other[j] != '.';
    assert other[7] == '.';
    IndexOfCharIs(other, '.', 0, Some(7));
    assert other[..7] == "details" && other[8..] == "name";
    assert PickValue(Details, "name") == StringType;
  }

  lemma PickUser(path: string)
    requires path == "user.details.name"
    ensures KeyOf(path) == "user"
    ensures PickValue(NestedObject, path) == Object(map["details" := Object(map["name" := StringType])])
  {
    assert forall j :: 0 <= j < 4 ==> path[j] != '.';
    assert path[4] == '.';
    IndexOfCharIs(path, '.', 0, Some(4));
    assert path[..4] == "user" && path[5..] == "details.name";
    PickDetails(path[5..]);
  }
}
