# react-component-theming, modelled in Dafny

This project models the two runtime pieces of the `react-component-theming` library.

- **Theme lookup** (`ThemeLookup.dfy`, from `src/lookup.ts`). `getThemeLookupFunction()` returns `lookup`. `lookup(dottedPath)` returns an accessor. Applied to `{ componentTheme }`, the accessor splits the path on `.` and indexes from the theme one segment at a time. It throws `Error('This can never happen.')` when a segment remains but the current value is not a non-null object (`isTheme`). Otherwise it returns the last value reached, as it is. A theme is the datatype `Theme = Node(map<string, Theme>) | Leaf(Element)`. An element is a primitive (string, number, `undefined`, `null`), an array or Set of primitives, or an opaque function value. `isTheme` is modelled through JavaScript's `typeof` (`TypeOf`), including `typeof null === 'object'`. The accessor exists in three forms:
  - `Access`, a method with the source's loop;
  - `Lookup`/`Walk`, the recursive functions that specify it;
  - `GetThemeLookupFunction`, the curried closure.

  The type-level `PathTree`/`Path` machinery is modelled on a declared type. `ThemeType` is an object type with declared properties and an optional string index signature, an array or Set type, a function type or a primitive type. `Conforms` says a theme instance has a declared type. `TypePath` is the set of key sequences `Path` admits for that type, and `Dotted` joins them. `IsPath` is the set of key sequences a theme instance actually has.
- **Settings store** (`InitializeSettingsContext.dfy`, from `src/initializeSettingsContext/initializeSettingsContext.tsx`, the version `src/lib.ts` exports). The provider's state becomes the class `SettingsStore`. It holds three fields:
  - an immutable `settingsCollection`;
  - the current `themingVariant`, which the setter changes;
  - the memoised `settings`, kept equal to `settingsCollection[themingVariant]` by the object invariant `Valid()`.

  The hooks `useSettings`, `useThemingVariant`, `useSettingsCollection` and `useComponentTheme` are functions that read the object. The closed variant type of the source becomes the precondition that a variant is a key of the collection. `TestSuiteScenarios` replays the four tests of the store's test file in three blocks (the second block covers two of them) and adds a block for `useComponentTheme`, which that file does not test. `SetTwice` shows that setting a variant is idempotent.

## Model

| member | source | states |
|---|---|---|
| `ThemeLookup.IsTheme` | src/lookup.ts:37-39 | `typeof thing === 'object' && thing !== null` holds exactly for nested objects, arrays and Sets. It fails for strings, numbers, `undefined`, `null` and functions. |
| `ThemeLookup.Walk` | src/lookup.ts:44-54 | The walk throws only while a segment remains, and the error always carries the message "This can never happen.". |
| `ThemeLookup.Split` | src/lookup.ts:46 | `path.split('.')` yields at least one segment. No segment contains '.', and joining the segments with '.' gives back the path. |
| `ThemeLookup.Access` | src/lookup.ts:42-55 | The accessor's loop computes exactly `Walk(componentTheme, Split(path))`: it indexes from the root one segment at a time and in order, it throws where the walk throws, and otherwise it returns the last value reached. |
| `ThemeLookup.GetThemeLookupFunction` | src/lookup.ts:41-56 | The curried closure agrees with `Lookup` on every path and theme, so each accessor re-walks its split path on every call. That building `lookup` inspects no theme follows from its signature, which takes none. On any plain-object instance of a declared type (every object-typed value is a plain object, not a function), the accessor for the dotted form of a path through declared, dot-free keys returns a value. |
| `ThemeLookup.SplitDotFree` | src/lookup.ts:46 | A string without '.' splits into itself alone. |
| `ThemeLookup.SplitAfterKey` | src/lookup.ts:46 | Splitting `key + "." + rest` gives `key` followed by the segments of `rest`, when `key` has no '.'. |
| `ThemeLookup.SplitDotted` | src/lookup.ts:8-19 | Splitting `Dotted(p)` on '.' gives back `p` when no key of `p` contains '.'. |
| `ThemeLookup.WalkAppend` | src/lookup.ts:46-52 | Walking `a + b` equals walking `a`, then walking `b` from the value reached. A throw during `a` is propagated. |
| `ThemeLookup.WalkThrowsIff` | src/lookup.ts:46-51 | The walk throws if and only if some prefix of the path is walked to a value that is not a non-null object while a segment remains. |
| `ThemeLookup.PathWalksWithoutThrowing` | src/lookup.ts:44-52 | Every key sequence a theme instance actually has walks that instance without reaching the throw. |
| `ThemeLookup.WalkOneSegment` | src/lookup.ts:46-52 | A one-segment walk performs exactly one indexing step, or it throws when the value is not an object. |
| `ThemeLookup.LookupSingleKey` | src/lookup.ts:46-54 | A single key indexes the theme once and returns what it finds. This includes the empty path `""`, which indexes key `""`. |
| `ThemeLookup.LookupKeyThenRest` | src/lookup.ts:46-52 | Looking up `"k.rest"` equals looking up `"rest"` in the value under `k`. It throws when the theme is not an object. |
| `ThemeLookup.OwnKeyReturnedAsIs` | src/lookup.ts:51-54 | The value under a present key is returned unchanged. A function-valued leaf is returned without being invoked. |
| `ThemeLookup.MissingKeyYieldsUndefined` | src/lookup.ts:47-54 | A missing key does not throw. It yields `undefined` as the last segment, and the accessor throws if a further segment follows. |
| `ThemeLookup.NonObjectWithSegmentLeftThrows` | src/lookup.ts:46-49 | When a segment remains after a primitive, `null`, `undefined` or function value, the accessor throws instead of returning. |
| `ThemeLookup.DottedKeyReachesThrow` | src/lookup.ts:1-49 | As written: the theme `{ 'a.b': 'x' }` has the type `{ 'a.b': string }`, for which `Path` admits `['a.b']` and `Dotted` gives `'a.b'`, yet the accessor throws. |
| `ThemeLookup.FunctionInstanceReachesThrow` | src/lookup.ts:1-49 | As written: the theme `{ a: () => 'x' }` has the type `{ a: { name: string } }` under structural typing, and `'a.name'` is a declared, dot-free path. The theme is not a plain-object instance, and the accessor throws at the function. |
| `ThemeLookup.PrimitiveInstanceReachesThrow` | src/lookup.ts:1-49 | As written: the theme `{ a: 'abc' }` has the type `{ a: { length: number } }` under structural typing, and `'a.length'` is a declared, dot-free path. The theme is not a plain-object instance, and the accessor throws at the string. |
| `ThemeLookup.IndexSignatureKeyReachesThrow` | src/lookup.ts:1-49 | As written: the theme `{}` has the type `Record<string, { b: string }>`, for which `Path` admits `['x', 'b']` and `Dotted` gives `'x.b'`, yet the accessor throws. |
| `ThemeLookup.SafePathNeverThrows` | src/lookup.ts:41-54 | Take a plain-object instance of a declared type, where every object-typed value is a plain object and not a function, and a path through declared properties only, with no key containing '.'. The accessor for the path's dotted form walks exactly that path and never throws. |
| `ThemeLookup.SafePathsNeverThrow` | src/lookup.ts:41-48 | The same guarantee, quantified over all plain-object instances, their types and their paths. |
| `ThemeLookup.IsPath` | src/lookup.ts:44-52 | Every key sequence a theme instance has is non-empty and starts at a non-null object, so the accessor's root check passes. |
| `ThemeLookup.Conforms` | src/lookup.ts:1-6 | For a plain-object instance of a declared type, `isTheme` holds exactly when the type is an object, array or Set type. A function type extends `object` but fails `isTheme`. Instances of object types that are functions are excluded (see "## Left out"). |
| `ThemeLookup.TypePath` | src/lookup.ts:1-6 | `Path` of a type is non-empty and exists only for object, array and Set types. A function or primitive type has no path. |
| `ThemeLookup.DeclaredPath` | src/lookup.ts:1-6 | Every path through declared properties only is a path `Path` admits. |
| `ThemeLookup.IsSafeTypePath` | src/lookup.ts:1-6 | The corrected notion of a legal path is a restriction of `Path`: it drops index-signature keys and keys containing '.'. |
| `ThemeLookup.ConformingInstanceHasDeclaredPath` | src/lookup.ts:1-6 | A path through declared properties of a type is present in every instance of that type. |
| `ThemeLookup.Dotted` | src/lookup.ts:8-19 | The dotted form of a path starts with its first key. Its length is the keys' total length plus one separator between each pair of neighbours. |
| `ThemeLookup.Index` | src/lookup.ts:51 | Indexing an object by an own key gives that key's value. A missing key gives a value that no further segment can index. An array or Set never yields a nested theme object. |
| `ThemeLookup.Lookup` | src/lookup.ts:43-54 | The root is always checked: a root that is not a non-null object throws whatever the path. Every throw carries the message "This can never happen.". |
| `ThemeLookup.NestedLookupCases` | example/styled-components/src/components/Greeting.tsx:12-35 | `'container.backgroundColor'` on `{ container: { backgroundColor: 'red' } }` gives `'red'`. It throws when `container` is a primitive. |
| `InitializeSettingsContext.SettingsStore.constructor` | src/initializeSettingsContext/initializeSettingsContext.tsx:34-38 | Right after initialisation, the variant is `initialThemingVariant` and the settings are that variant's entry. The invariant holds. |
| `InitializeSettingsContext.SettingsStore.SetThemingVariant` | src/initializeSettingsContext/initializeSettingsContext.tsx:43-45 | The new variant becomes current and the settings become `settingsCollection[v]`. The method writes only the variant and its memo, so the collection is untouched. The invariant is kept. |
| `InitializeSettingsContext.SettingsStore.UseSettingsCollection` | src/initializeSettingsContext/initializeSettingsContext.tsx:60-63 | Returns the initial collection unchanged. It reads no mutable state, so the result is the same for every variant. |
| `InitializeSettingsContext.SettingsStore.UseThemingVariant` | src/initializeSettingsContext/initializeSettingsContext.tsx:71-76 | The observed variant is always a key the collection declares. |
| `InitializeSettingsContext.SettingsStore.UseSettings` | src/initializeSettingsContext/initializeSettingsContext.tsx:65-69 | The observed settings are the collection's entry for the observed variant. |
| `InitializeSettingsContext.SettingsStore.UseComponentTheme` | src/initializeSettingsContext/initializeSettingsContext.tsx:78-90 | The result is the factory applied to `{ settings: settingsCollection[themingVariant], themingVariant }` for the current state. |
| `InitializeSettingsContext.SetTwice` | src/initializeSettingsContext/initializeSettingsContext.tsx:43-45 | Setting the same variant twice leaves the same observable state as setting it once. The collection is the same before and after. |

## Left out

- React mechanics: `createContext`, the `Provider` element, `useContext`, `useMemo` identity, re-render notification and batched updates. The store is a single object, and each hook reads it directly.
- The hooks return their values bare. The wrapper objects `{ settings }`, `{ themingVariant, setThemingVariant }`, `{ settingsCollection }` and `{ componentTheme }` are not modelled, and the setter is the method `SetThemingVariant`.
- `src/initializeSettingsContext.tsx`, the superseded copy whose provider takes the initial variant as a prop. `src/lib.ts` does not export it. It also differs in two further ways: it has no `useSettingsCollection`, and its `useComponentTheme` returns the factory's result bare instead of wrapping it as `{ componentTheme }` (src/initializeSettingsContext.tsx:70-78).
- Type-only files and `src/lib.ts` have no runtime behaviour. At most they shape the Dafny signatures.
- The example applications are left out.
- What indexing an array or a Set by a string key returns (`"0"`, `"length"`, methods) is host-language semantics. It is the parameter `host` of the lookup, and nothing is assumed about it.
- Properties inherited from `Object.prototype` (`"toString"`, `"constructor"`, `"__proto__"`) are not modelled. Indexing an object by a key it does not own yields `undefined` in the model.
- Numbers are unbounded integers rather than IEEE doubles. Booleans, symbols and non-string keys do not occur in the source's `Theme` type.
- `ThemeLookup.TypePath`: `ThemeType` has no optional properties, unions, generics or numeric index signatures. For an array or Set type, any single further string key counts as a path. That is a superset of the string keys TypeScript gives those types.
- `ThemeLookup.Conforms`: the model's instances of object types are plain objects only. TypeScript's structural typing also accepts other values whose own or apparent members cover the declared properties: a function (`length`, `name`), a primitive such as a string (`length`), or an array or Set (`push`, `size` and the like). On such an instance a declared path can throw (`FunctionInstanceReachesThrow`, `PrimitiveInstanceReachesThrow`). So `SafePathNeverThrows`, `SafePathsNeverThrow` and `GetThemeLookupFunction` promise no throw only for plain-object instances.
- `ThemeLookup.IsPath` is about a theme instance, not its type. The guarantee about types is `SafePathNeverThrows`, which goes through `Conforms` and `DeclaredPath`.

## Findings

| source | as written | input that shows it | evidently intended | confidence | as-written member | corrected member |
|---|---|---|---|---|---|---|
| src/lookup.ts:1-48 | `Path` admits theme keys that contain '.', and `Dotted` joins them with '.'. The accessor then splits the joined string into different segments, so the branch commented "This can never happen." is reachable. | theme `{ 'a.b': 'x' }` with path `'a.b'`: `theme['a']` is `undefined`, and the remaining segment `'b'` throws. | Every path the type admits walks without throwing. Keys containing '.' are excluded from `Path`, or else the accessor must not split them. | not executed; follows from the TypeScript typing rules as modelled | `ThemeLookup.DottedKeyReachesThrow` | `ThemeLookup.SafePathNeverThrows` |
| src/lookup.ts:1-48 | Under a string index signature, `PathTree` admits every string as a key. A theme of that type need not have the key, so its value is `undefined`, and a further segment reaches the branch commented "This can never happen.". | theme `{}` of type `Record<string, { b: string }>` with path `'x.b'`: `theme['x']` is `undefined`, and the remaining segment `'b'` throws. | Every path the type admits walks without throwing. Index-signature keys are excluded from `Path`, or else a missing key ends the walk with `undefined`. | not executed; follows from the TypeScript typing rules as modelled | `ThemeLookup.IndexSignatureKeyReachesThrow` | `ThemeLookup.SafePathNeverThrows` |
| src/lookup.ts:1-48 | Structural typing accepts a value that is not a plain object as a value of an object type when its own or apparent members cover the declared properties: a function through `length` and `name`, a string through `length`, an array or Set through its methods. `PathTree` then admits a path into that value, but `isTheme` fails on it, or it fails one level further down, so the branch commented "This can never happen." is reachable. `PrimitiveInstanceReachesThrow` shows the same for the theme `{ a: 'abc' }` of type `{ a: { length: number } }` with path `'a.length'`. | theme `{ a: () => 'x' }` of type `{ a: { name: string } }` with path `'a.name'`: `theme['a']` is a function, and the remaining segment `'name'` throws. | Every path the type admits walks without throwing. Paths into object types are admitted only where the value is a plain object, or else a non-object value ends the walk instead of throwing. | not executed; follows from the TypeScript typing rules as modelled | `ThemeLookup.FunctionInstanceReachesThrow` | `ThemeLookup.SafePathNeverThrows` |
