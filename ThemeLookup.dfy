/**
 * The theme lookup helper of src/lookup.ts.
 *
 * `getThemeLookupFunction()` gives `lookup`; `lookup(dottedPath)` gives an
 * accessor that, applied to `{ componentTheme }`, splits the path on '.' and
 * indexes from the theme one segment at a time, throwing if a segment remains
 * while the current value is not a non-null object.  The type-level
 * `PathTree`/`Path`/`Dotted` machinery that decides which dotted strings are
 * legal is modelled on a declared `ThemeType` by `TypePath` and `Dotted`;
 * `IsPath` describes the key sequences a theme instance actually has.
 */
module ThemeLookup {

  /** `Primitive`: strings, numbers, `undefined` and `null`. */
  datatype Primitive = Str(s: string) | Num(n: int) | Undefined | Null

  /** `ThemeElement`: a primitive, an array or Set of primitives, or a function value (kept opaque: it is never invoked). */
  datatype Element =
    | Prim(p: Primitive)
    | ArrayOf(items: seq<Primitive>)
    | SetOf(members: set<Primitive>)
    | Function(id: nat)
  {
    predicate IsContainer() { ArrayOf? || SetOf? }
  }

  /** A value found in a theme: a nested `Theme` object or a `ThemeElement`. */
  datatype Theme = Node(fields: map<string, Theme>) | Leaf(element: Element)

  /** The JavaScript value `undefined`, which indexing yields for a key the object does not have. */
  const UndefinedValue: Theme := Leaf(Prim(Undefined))

  /** The message of the error the accessor throws. */
  const NeverHappens: string := "This can never happen."

  /**
   * What indexing an array or a Set by a string key yields ("0", "length",
   * "has", ...) is the host language's business; the model takes it as a
   * parameter and assumes nothing about it.
   */
  type ContainerIndex = (Element, string) -> Element

  /** What the accessor does: return a value, or throw an `Error` with a message. */
  datatype Outcome = Returned(value: Theme) | Thrown(message: string)

  /** The JavaScript `typeof` operator on theme values. */
  function TypeOf(thing: Theme): string
  {
    match thing
    case Node(_) => "object"
    case Leaf(Prim(Str(_))) => "string"
    case Leaf(Prim(Num(_))) => "number"
    case Leaf(Prim(Undefined)) => "undefined"
    case Leaf(Prim(Null)) => "object"
    case Leaf(ArrayOf(_)) => "object"
    case Leaf(SetOf(_)) => "object"
    case Leaf(Function(_)) => "function"
  }

  /** `isTheme`: `typeof thing === 'object' && thing !== null`. */
  predicate IsTheme(thing: Theme)
    ensures IsTheme(thing) <==> thing.Node? || thing.element.IsContainer()
  {
    TypeOf(thing) == "object" && thing != Leaf(Prim(Null))
  }

  /**
   * `current[property]`, on a value that passed `IsTheme`: an own key gives
   * its value; a missing key gives `undefined`, which no further segment can
   * index; an array or Set never yields a nested theme object.
   */
  function Index(current: Theme, property: string, host: ContainerIndex): (r: Theme)
    requires IsTheme(current)
    ensures current.Node? && property in current.fields ==> r == current.fields[property]
    ensures current.Node? && property !in current.fields ==> !IsTheme(r)
    ensures current.Leaf? ==> r.Leaf?
  {
    match current
    case Node(fields) => if property in fields then fields[property] else UndefinedValue
    case Leaf(element) => Leaf(host(element, property))
  }

  /** The body of the `for` loop, run over the remaining `properties` from `current`. */
  function Walk(current: Theme, properties: seq<string>, host: ContainerIndex): (r: Outcome)
    ensures r.Thrown? ==> properties != [] && r.message == NeverHappens
    decreases |properties|
  {
    if properties == [] then Returned(current)
    else if !IsTheme(current) then Thrown(NeverHappens)
    else Walk(Index(current, properties[0], host), properties[1..], host)
  }

  /** The total length of the keys of a path. */
  function TotalLength(path: seq<string>): nat
  {
    if path == [] then 0 else |path[0]| + TotalLength(path[1..])
  }

  /** `Dotted<TPath>`: the keys of a non-empty path joined by '.'; it starts with the first key and adds one separator between neighbours. */
  function Dotted(path: seq<string>): (s: string)
    requires |path| >= 1
    ensures path[0] <= s
    ensures |s| == TotalLength(path) + |path| - 1
  {
    if |path| == 1 then path[0] else path[0] + "." + Dotted(path[1..])
  }

  /** `s.split('.')`: at least one segment, none holding a '.', and joining them back gives `s`. */
  function Split(s: string): (segments: seq<string>)
    ensures |segments| >= 1
    ensures forall i :: 0 <= i < |segments| ==> '.' !in segments[i]
    ensures Dotted(segments) == s
  {
    if s == [] then [""]
    else if s[0] == '.' then [""] + Split(s[1..])
    else
      var rest := Split(s[1..]);
      [[s[0]] + rest[0]] + rest[1..]
  }

  /**
   * The accessor built for `path`, applied to `{ componentTheme }`.  There is
   * always a first segment, so the root is always checked: a root that is not
   * a non-null object throws, whatever the path.
   */
  function Lookup(componentTheme: Theme, path: string, host: ContainerIndex): (r: Outcome)
    ensures !IsTheme(componentTheme) ==> r == Thrown(NeverHappens)
    ensures r.Thrown? ==> r.message == NeverHappens
  {
    Walk(componentTheme, Split(path), host)
  }

  /**
   * The accessor returned by `lookup(path)`, as the source writes it: a loop
   * over the segments that reassigns `current` and throws mid-loop.
   */
  method Access(componentTheme: Theme, path: string, host: ContainerIndex) returns (r: Outcome)
    ensures r == Lookup(componentTheme, path, host)
  {
    var properties := Split(path);
    var current := componentTheme;
    for i := 0 to |properties|
      invariant Walk(current, properties[i..], host) == Walk(componentTheme, properties, host)
    {
      if !IsTheme(current) {
        return Thrown(NeverHappens);
      }
      current := Index(current, properties[i], host);
    }
    return Returned(current);
  }

  /**
   * The key sequences present in a theme instance: every key is an own key of
   * the object reached so far, and a path ends at a non-object value or goes
   * one key into an array or Set.  Such a path starts at an object.
   */
  predicate IsPath(theme: Theme, path: seq<string>)
    ensures IsPath(theme, path) ==> |path| >= 1 && IsTheme(theme)
    decreases |path|
  {
    |path| >= 1 &&
    match theme
    case Node(fields) => path[0] in fields && (|path| == 1 || IsPath(fields[path[0]], path[1..]))
    case Leaf(element) => element.IsContainer() && |path| == 1
  }

  datatype Option<T> = None | Some(value: T)

  /**
   * The declared type of a theme, as far as `PathTree` looks at it: an object
   * type with declared properties and possibly a string index signature, an
   * array or Set type, a function type, or a primitive type.
   */
  datatype ThemeType =
    | ObjectType(properties: map<string, ThemeType>, indexSignature: Option<ThemeType>)
    | ContainerType
    | FunctionType
    | PrimitiveType

  /**
   * A plain-object instance of a declared type: every value of an object type
   * is a plain object whose declared properties are present and of their
   * types, and whose other own keys are of the index signature's type when
   * there is one.  Function types extend `object` but fail `isTheme`.
   */
  predicate Conforms(theme: Theme, ty: ThemeType)
    ensures Conforms(theme, ty) ==> (IsTheme(theme) <==> ty.ObjectType? || ty.ContainerType?)
    decreases ty
  {
    match ty
    case ObjectType(properties, indexSignature) =>
      && theme.Node?
      && (forall key :: key in properties ==> key in theme.fields && Conforms(theme.fields[key], properties[key]))
      && (forall key :: key in theme.fields && key !in properties && indexSignature.Some? ==>
            Conforms(theme.fields[key], indexSignature.value))
    case ContainerType => theme.Leaf? && theme.element.IsContainer()
    case FunctionType => theme.Leaf? && theme.element.Function?
    case PrimitiveType => theme.Leaf? && theme.element.Prim?
  }

  /**
   * `Path<TTheme>`, computed from the type as `PathTree` does: a key of the
   * type may end the path, and may be followed by a path of its property type
   * when that type extends `object`.  Keys are the declared properties and,
   * under a string index signature, every other string.  An array or Set type
   * admits any one further key (a superset of its string keys, whose values
   * are numbers or methods and end the path); a function type has no keys.
   */
  predicate TypePath(ty: ThemeType, path: seq<string>)
    ensures TypePath(ty, path) ==> |path| >= 1 && (ty.ObjectType? || ty.ContainerType?)
    decreases |path|
  {
    |path| >= 1 &&
    match ty
    case ObjectType(properties, indexSignature) =>
      if path[0] in properties then |path| == 1 || TypePath(properties[path[0]], path[1..])
      else indexSignature.Some? && (|path| == 1 || TypePath(indexSignature.value, path[1..]))
    case ContainerType => |path| == 1
    case FunctionType => false
    case PrimitiveType => false
  }

  /** The paths of `Path<TTheme>` that use declared properties only, never an index signature. */
  predicate DeclaredPath(ty: ThemeType, path: seq<string>)
    ensures DeclaredPath(ty, path) ==> TypePath(ty, path)
    decreases |path|
  {
    |path| >= 1 &&
    match ty
    case ObjectType(properties, _) =>
      path[0] in properties && (|path| == 1 || DeclaredPath(properties[path[0]], path[1..]))
    case ContainerType => |path| == 1
    case FunctionType => false
    case PrimitiveType => false
  }

  /** `Path<TTheme>` corrected: declared properties only, and no key containing '.'. */
  predicate IsSafeTypePath(ty: ThemeType, path: seq<string>)
    ensures IsSafeTypePath(ty, path) ==> TypePath(ty, path)
  {
    DeclaredPath(ty, path) && forall i :: 0 <= i < |path| ==> '.' !in path[i]
  }

  /**
   * `getThemeLookupFunction()`: builds `lookup` from no theme at all; the
   * accessor for a path re-walks it on every call.  On a plain-object instance
   * of its declared type, the accessor for a corrected legal path never throws.
   */
  function GetThemeLookupFunction(host: ContainerIndex): (lookup: string -> Theme -> Outcome)
    ensures forall path, componentTheme :: lookup(path)(componentTheme) == Lookup(componentTheme, path, host)
    ensures forall ty, path, componentTheme ::
      Conforms(componentTheme, ty) && IsSafeTypePath(ty, path) ==> lookup(Dotted(path))(componentTheme).Returned?
  {
    SafePathsNeverThrow(host);
    path => componentTheme => Lookup(componentTheme, path, host)
  }

  // ---------------------------------------------------------------------------
  // Splitting and joining

  /** A key without '.' is a single segment (the segments have no '.' and join back to the key). */
  lemma SplitDotFree(key: string)
    requires '.' !in key
    ensures Split(key) == [key]
  {
  }

  lemma {:induction false} SplitAfterKey(key: string, rest: string)
    requires '.' !in key
    ensures Split(key + "." + rest) == [key] + Split(rest)
  {
    var s := key + "." + rest;
    if key == [] {
      assert s[0] == '.' && s[1..] == rest;
    } else {
      assert s[0] == key[0] && s[1..] == key[1..] + "." + rest;
      SplitAfterKey(key[1..], rest);
      assert [key[0]] + key[1..] == key;
    }
  }

  /** Splitting `Dotted(path)` on '.' gives back `path`, provided no key contains '.'. */
  lemma {:induction false} SplitDotted(path: seq<string>)
    requires |path| >= 1
    requires forall i :: 0 <= i < |path| ==> '.' !in path[i]
    ensures Split(Dotted(path)) == path
  {
    if |path| == 1 {
      SplitDotFree(path[0]);
    } else {
      SplitDotted(path[1..]);
      SplitAfterKey(path[0], Dotted(path[1..]));
      assert [path[0]] + path[1..] == path;
    }
  }

  // ---------------------------------------------------------------------------
  // The walk

  /** Walking `a + b` is walking `a`, then walking `b` from wherever that ended, unless it threw. */
  lemma {:induction false} WalkAppend(current: Theme, a: seq<string>, b: seq<string>, host: ContainerIndex)
    ensures Walk(current, a + b, host) ==
      match Walk(current, a, host)
      case Returned(v) => Walk(v, b, host)
      case Thrown(m) => Thrown(m)
    decreases |a|
  {
    if a == [] {
      assert a + b == b;
    } else {
      assert (a + b)[0] == a[0] && (a + b)[1..] == a[1..] + b;
      if IsTheme(current) {
        WalkAppend(Index(current, a[0], host), a[1..], b, host);
      }
    }
  }

  /** The walk throws exactly when, after some prefix of the path, a segment remains and the value reached is not a non-null object. */
  lemma {:induction false} WalkThrowsIff(current: Theme, properties: seq<string>, host: ContainerIndex)
    ensures Walk(current, properties, host).Thrown? <==>
      exists i :: 0 <= i < |properties| && Walk(current, properties[..i], host).Returned? &&
        !IsTheme(Walk(current, properties[..i], host).value)
    decreases |properties|
  {
    if properties != [] {
      assert properties[..0] == [];
      if IsTheme(current) {
        var next := Index(current, properties[0], host);
        WalkThrowsIff(next, properties[1..], host);
        forall i | 1 <= i <= |properties|
          ensures Walk(current, properties[..i], host) == Walk(next, properties[1..][..i - 1], host)
        {
          assert properties[..i][0] == properties[0] && properties[..i][1..] == properties[1..][..i - 1];
        }
        if Walk(current, properties, host).Thrown? {
          var j :| 0 <= j < |properties[1..]| && Walk(next, properties[1..][..j], host).Returned? &&
            !IsTheme(Walk(next, properties[1..][..j], host).value);
          assert Walk(current, properties[..j + 1], host) == Walk(next, properties[1..][..j], host);
        }
        if exists i :: 0 <= i < |properties| && Walk(current, properties[..i], host).Returned? &&
            !IsTheme(Walk(current, properties[..i], host).value) {
          var i :| 0 <= i < |properties| && Walk(current, properties[..i], host).Returned? &&
            !IsTheme(Walk(current, properties[..i], host).value);
          assert i != 0;
          assert Walk(next, properties[1..][..i - 1], host) == Walk(current, properties[..i], host);
        }
      }
    }
  }

  /** Every key sequence present in a theme instance walks it without throwing. */
  lemma {:induction false} PathWalksWithoutThrowing(theme: Theme, path: seq<string>, host: ContainerIndex)
    requires IsPath(theme, path)
    ensures Walk(theme, path, host).Returned?
    decreases |path|
  {
    if |path| > 1 {
      PathWalksWithoutThrowing(theme.fields[path[0]], path[1..], host);
    }
  }

  /** A declared path of a type is present in every instance of that type. */
  lemma {:induction false} ConformingInstanceHasDeclaredPath(theme: Theme, ty: ThemeType, path: seq<string>)
    requires Conforms(theme, ty) && DeclaredPath(ty, path)
    ensures IsPath(theme, path)
    decreases |path|
  {
    if ty.ObjectType? && |path| > 1 {
      ConformingInstanceHasDeclaredPath(theme.fields[path[0]], ty.properties[path[0]], path[1..]);
    }
  }

  // ---------------------------------------------------------------------------
  // The accessor on dotted strings

  /** One segment: a single indexing step, or the throw. */
  lemma WalkOneSegment(current: Theme, key: string, host: ContainerIndex)
    ensures Walk(current, [key], host) ==
      if IsTheme(current) then Returned(Index(current, key, host)) else Thrown(NeverHappens)
  {
  }

  /**
   * A single key (the empty string included) indexes the theme once and
   * returns what it finds.  Every lookup starts this way at the root, so the
   * root itself is never what a path names.
   */
  lemma LookupSingleKey(componentTheme: Theme, key: string, host: ContainerIndex)
    requires '.' !in key
    ensures Lookup(componentTheme, key, host) ==
      if IsTheme(componentTheme) then Returned(Index(componentTheme, key, host)) else Thrown(NeverHappens)
  {
    SplitDotFree(key);
    WalkOneSegment(componentTheme, key, host);
  }

  /** Looking up `key.rest` is looking up `rest` in the value under `key`. */
  lemma LookupKeyThenRest(componentTheme: Theme, key: string, rest: string, host: ContainerIndex)
    requires '.' !in key
    ensures Lookup(componentTheme, key + "." + rest, host) ==
      if IsTheme(componentTheme) then Lookup(Index(componentTheme, key, host), rest, host) else Thrown(NeverHappens)
  {
    SplitAfterKey(key, rest);
  }

  /** A present key's value is returned as it is: a function-valued leaf is not invoked. */
  lemma OwnKeyReturnedAsIs(fields: map<string, Theme>, key: string, host: ContainerIndex)
    requires '.' !in key && key in fields
    ensures Lookup(Node(fields), key, host) == Returned(fields[key])
  {
    LookupSingleKey(Node(fields), key, host);
  }

  /** A missing key does not throw by itself: it yields `undefined`, and only a further segment makes the accessor throw. */
  lemma MissingKeyYieldsUndefined(fields: map<string, Theme>, key: string, rest: string, host: ContainerIndex)
    requires '.' !in key && key !in fields
    ensures Lookup(Node(fields), key, host) == Returned(UndefinedValue)
    ensures Lookup(Node(fields), key + "." + rest, host) == Thrown(NeverHappens)
  {
    LookupSingleKey(Node(fields), key, host);
    LookupKeyThenRest(Node(fields), key, rest, host);
    assert Split(rest) != [];
  }

  /** Where a segment meets a primitive, `null`, `undefined` or a function, the accessor throws instead of returning. */
  lemma NonObjectWithSegmentLeftThrows(fields: map<string, Theme>, key: string, rest: string, host: ContainerIndex)
    requires '.' !in key && key in fields && !IsTheme(fields[key])
    ensures Lookup(Node(fields), key + "." + rest, host) == Thrown(NeverHappens)
  {
    LookupKeyThenRest(Node(fields), key, rest, host);
    assert Split(rest) != [];
  }

  /** As written: a key containing '.' is a legal path whose dotted form the accessor splits differently, and it throws. */
  lemma DottedKeyReachesThrow()
    ensures var ty := ObjectType(map["a.b" := PrimitiveType], None);
      var theme := Node(map["a.b" := Leaf(Prim(Str("x")))]);
      Conforms(theme, ty) && TypePath(ty, ["a.b"]) && Dotted(["a.b"]) == "a.b" &&
      forall host: ContainerIndex :: Lookup(theme, "a.b", host) == Thrown(NeverHappens)
  {
  }

  /**
   * As written: under a string index signature every key is a legal path, but
   * an instance need not have it; a further segment after the missing key throws.
   */
  lemma IndexSignatureKeyReachesThrow()
    ensures var ty := ObjectType(map[], Some(ObjectType(map["b" := PrimitiveType], None)));
      Conforms(Node(map[]), ty) && TypePath(ty, ["x", "b"]) && Dotted(["x", "b"]) == "x.b" &&
      forall host: ContainerIndex :: Lookup(Node(map[]), "x.b", host) == Thrown(NeverHappens)
  {
    assert "x" + "." + "b" == "x.b";
    forall host: ContainerIndex
      ensures Lookup(Node(map[]), "x.b", host) == Thrown(NeverHappens)
    {
      MissingKeyYieldsUndefined(map[], "x", "b", host);
    }
  }

  /**
   * As written: structural typing lets a function value stand for an object
   * type whose declared properties are among the function's own `length` and
   * `name`.  For `{ a: () => 'x' }` of type `{ a: { name: string } }` the path
   * `'a.name'` is declared and dot-free, but the theme is not a plain-object
   * instance, and the accessor throws at the function.
   */
  lemma FunctionInstanceReachesThrow()
    ensures var ty := ObjectType(map["a" := ObjectType(map["name" := PrimitiveType], None)], None);
      var theme := Node(map["a" := Leaf(Function(0))]);
      IsSafeTypePath(ty, ["a", "name"]) && Dotted(["a", "name"]) == "a.name" && !Conforms(theme, ty) &&
      forall host: ContainerIndex :: Lookup(theme, "a.name", host) == Thrown(NeverHappens)
  {
    assert "a" + "." + "name" == "a.name";
    forall host: ContainerIndex
      ensures Lookup(Node(map["a" := Leaf(Function(0))]), "a.name", host) == Thrown(NeverHappens)
    {
      NonObjectWithSegmentLeftThrows(map["a" := Leaf(Function(0))], "a", "name", host);
    }
  }

  /**
   * As written: a primitive also stands for an object type structurally.  For
   * `{ a: 'abc' }` of type `{ a: { length: number } }` the path `'a.length'` is
   * declared and dot-free, and the accessor throws at the string.
   */
  lemma PrimitiveInstanceReachesThrow()
    ensures var ty := ObjectType(map["a" := ObjectType(map["length" := PrimitiveType], None)], None);
      var theme := Node(map["a" := Leaf(Prim(Str("abc")))]);
      IsSafeTypePath(ty, ["a", "length"]) && Dotted(["a", "length"]) == "a.length" && !Conforms(theme, ty) &&
      forall host: ContainerIndex :: Lookup(theme, "a.length", host) == Thrown(NeverHappens)
  {
    assert "a" + "." + "length" == "a.length";
    forall host: ContainerIndex
      ensures Lookup(Node(map["a" := Leaf(Prim(Str("abc")))]), "a.length", host) == Thrown(NeverHappens)
    {
      NonObjectWithSegmentLeftThrows(map["a" := Leaf(Prim(Str("abc")))], "a", "length", host);
    }
  }

  /**
   * Corrected: on a plain-object instance of its declared type, the accessor for the dotted
   * form of a path through declared, dot-free keys walks exactly that path and
   * never throws.
   */
  lemma SafePathNeverThrows(theme: Theme, ty: ThemeType, path: seq<string>, host: ContainerIndex)
    requires Conforms(theme, ty) && IsSafeTypePath(ty, path)
    ensures Lookup(theme, Dotted(path), host) == Walk(theme, path, host)
    ensures Lookup(theme, Dotted(path), host).Returned?
  {
    SplitDotted(path);
    ConformingInstanceHasDeclaredPath(theme, ty, path);
    PathWalksWithoutThrowing(theme, path, host);
  }

  lemma SafePathsNeverThrow(host: ContainerIndex)
    ensures forall theme, ty, path ::
      Conforms(theme, ty) && IsSafeTypePath(ty, path) ==> Lookup(theme, Dotted(path), host).Returned?
  {
    forall theme, ty, path | Conforms(theme, ty) && IsSafeTypePath(ty, path)
      ensures Lookup(theme, Dotted(path), host).Returned?
    {
      SafePathNeverThrows(theme, ty, path, host);
    }
  }

  // ---------------------------------------------------------------------------
  // Worked cases

  /** `{ container: { backgroundColor: 'red' } }` with `'container.backgroundColor'` gives `'red'`; with `container` a primitive it throws. */
  lemma NestedLookupCases(host: ContainerIndex)
    ensures Lookup(Node(map["container" := Node(map["backgroundColor" := Leaf(Prim(Str("red")))])]),
                   "container.backgroundColor", host) == Returned(Leaf(Prim(Str("red"))))
    ensures Lookup(Node(map["container" := Leaf(Prim(Str("red")))]),
                   "container.backgroundColor", host) == Thrown(NeverHappens)
  {
    assert '.' !in "container" && '.' !in "backgroundColor";
    assert "container" + "." + "backgroundColor" == "container.backgroundColor";
    LookupKeyThenRest(Node(map["container" := Node(map["backgroundColor" := Leaf(Prim(Str("red")))])]),
                      "container", "backgroundColor", host);
    OwnKeyReturnedAsIs(map["backgroundColor" := Leaf(Prim(Str("red")))], "backgroundColor", host);
    NonObjectWithSegmentLeftThrows(map["container" := Leaf(Prim(Str("red")))], "container", "backgroundColor", host);
  }
}
