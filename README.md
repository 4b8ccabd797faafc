# SetupAndroid XML-callback resolver, in Dafny

This project models the XML-callback resolver of avedroid's `SetupAndroid`.
The resolver finds the callback methods that Android layout files name, so
that the dummy main method can call them. It fills two maps in place:

- `layoutClasses`: class name → the ids of the layouts the class binds with
  `setContentView(int)`. `findClassLayoutMappings` fills it by scanning the
  concrete methods of the concrete application classes.
- `xmlCallbacks`: hosting class name → its callback methods.
  `collectXmlBasedCallbackMethods` fills it. Each layout id is looked up in
  the resource table to get a layout file name. Each `onClick`-style name
  from that layout resolves to the nearest declaring class in the host's
  superclass chain. Each custom view class of that layout contributes its
  overrides of methods of its `android.*` superclasses.

`createEntryPointCreator` then flattens `xmlCallbacks` into a map from class
name to a list of method signatures.

The program scene is plain data (module `Scene`). It is a map from class name
to the class's superclass, its concreteness and its methods. Each method has
a sub-signature, constructor and concreteness flags, and a body of
statements, each with an optional invoke expression. Each class also carries
its `depth`, the number of superclass steps to the root of its hierarchy.
`WellFormed` ties the depth to the superclass link, which makes every
hierarchy acyclic and every superclass walk finite. The resource table and
the layout parser's two output maps are inputs.

Modules:

- `Wrappers`: `Option`.
- `MapOfSets`: the map-of-sets insertion that both fields use, and `Pairs`,
  the set of (key, value) pairs a map holds. `PairsDetermine` shows that a
  map without empty sets is determined by its pairs. So the methods state each
  field's new state as its pairs together with `Valid` (no empty sets).
- `Scene`: classes, methods, statements, and the superclass chain of a class.
- `Callbacks`: pure specifications of what each step computes, the
  characterisation lemmas, and the one-element step lemmas the loops use.
- `Setup`: class `SetupAndroid` with the fields `entrypoints`,
  `xmlCallbacks` and `layoutClasses`. Its methods are the resolver's loops,
  each proved against the matching function of `Callbacks`.

The iteration order of `HashMap` and `HashSet` is left open. A loop over a
set picks any remaining element, so every result holds for every order.

## Model

| member | source | states |
|---|---|---|
| MapOfSets.Insert | src/averroes/android/SetupAndroid.java:269-276 | the value is in the set under its key afterwards; the key is created if absent; the set gains only that value; other keys' sets are unchanged; no set loses an element; no set becomes empty |
| MapOfSets.PairsOfInsert | src/averroes/android/SetupAndroid.java:269-276 | inserting adds exactly one (key, value) pair to the map's pairs |
| MapOfSets.KeysOfPairs | src/averroes/android/SetupAndroid.java:308-312 | when no set is empty, the keys are exactly the keys of the pairs: a key exists only once a value is filed under it |
| MapOfSets.PairsDetermine | src/averroes/android/SetupAndroid.java:75-78 | two maps of sets without empty sets that hold the same pairs are equal, so pairs plus `Valid` state a field's whole value |
| MapOfSets.AddingAgainChangesNothing | src/averroes/android/SetupAndroid.java:269-276 | adding pairs the map already holds leaves the map equal to what it was |
| Scene.Chain | src/averroes/android/SetupAndroid.java:339-347 | the superclass chain starts at the class, each entry's superclass is the next entry, every entry is loaded, and it ends at the first class with no superclass after exactly depth steps |
| Scene.SuperclassesOf | src/averroes/android/SetupAndroid.java:254 | the strict superclasses, depth many, all loaded and none equal to the class itself |
| Scene.ChainDepthsDecrease | src/averroes/android/SetupAndroid.java:237-243 | depths fall by one along the chain, so every walk up the hierarchy ends |
| Callbacks.LayoutBindingsExactly | src/averroes/android/SetupAndroid.java:292-322 | a (class, id) binding is recorded iff the class is one of the application classes, is concrete, and has a concrete method with a statement calling Activity's setContentView with the integer constant id as an argument |
| Callbacks.NearestDeclarerIsNearest | src/averroes/android/SetupAndroid.java:184-202 | name resolution finds nothing iff no class in the host's chain declares the sub-signature; otherwise it finds the first chain position that declares it |
| Callbacks.ViewCallbacksExactly | src/averroes/android/SetupAndroid.java:226-267 | a method is registered for a view iff the host and the view are not `android.*` classes, the view is a View, and the method is a non-constructor of the view itself whose sub-signature is that of a non-constructor of an `android.*` strict superclass; the method is filed as the view's |
| Callbacks.UnknownLayoutContributesNothing | src/averroes/android/SetupAndroid.java:176-213 | a layout id with no resource or a non-string resource contributes nothing; a layout file with no callback-name entry contributes only its views; a layout file with no user-controls entry contributes only its named callbacks |
| Callbacks.XmlCallbacksDeclared | src/averroes/android/SetupAndroid.java:169-216 | every pair a run files has a host that binds a layout and a callback whose class really declares it; that class is in the host's chain, or it is a View and neither it nor the host is an `android.*` class |
| Setup.SetupAndroid.constructor | src/averroes/android/SetupAndroid.java:75-78 | both maps start empty and the entry points are recorded |
| Setup.SetupAndroid.AddCallbackMethod | src/averroes/android/SetupAndroid.java:269-276 | `xmlCallbacks` becomes the insertion of the method under the class, which adds exactly that one pair and keeps every set non-empty |
| Setup.SetupAndroid.CalculateCallbackMethods | src/averroes/android/SetupAndroid.java:156-166 | after a run `layoutClasses` holds its old pairs plus the bindings of the application classes, its keys stay loaded classes, and `xmlCallbacks` holds its old pairs plus the callbacks of every bound layout |
| Setup.SetupAndroid.RepeatedRun | src/averroes/android/SetupAndroid.java:156-166 | a second resolution run on the same inputs leaves `layoutClasses` and `xmlCallbacks` equal to the maps the first run produced |
| Setup.SetupAndroid.FindClassLayoutMappings | src/averroes/android/SetupAndroid.java:292-322 | `layoutClasses` gains exactly the layout bindings of the application classes and nothing else |
| Setup.SetupAndroid.ScanBody | src/averroes/android/SetupAndroid.java:299-318 | `layoutClasses` gains, under the class, exactly the layout ids one method body binds |
| Setup.SetupAndroid.AddLayoutIds | src/averroes/android/SetupAndroid.java:305-314 | `layoutClasses` gains, under the class, exactly the integer-constant arguments; other arguments are ignored |
| Setup.SetupAndroid.InvokesSetContentView | src/averroes/android/SetupAndroid.java:330-349 | true iff the invoked name is setContentView and, walking up from the callee's declaring class, an Activity class comes before any class declaring "void setContentView(int)", the name being tested first in each class |
| Setup.SetupAndroid.CollectXmlBasedCallbackMethods | src/averroes/android/SetupAndroid.java:169-216 | `xmlCallbacks` gains exactly the callbacks of every layout of every class in `layoutClasses`, each filed under its hosting class |
| Setup.SetupAndroid.CollectHostCallbacks | src/averroes/android/SetupAndroid.java:175-214 | `xmlCallbacks` gains, under the host, exactly the callbacks of the host's layout ids |
| Setup.SetupAndroid.CollectLayoutCallbacks | src/averroes/android/SetupAndroid.java:180-211 | `xmlCallbacks` gains, under the host, the named callbacks of one layout file plus the callbacks of its custom views |
| Setup.SetupAndroid.CollectNamedCallbacks | src/averroes/android/SetupAndroid.java:181-204 | `xmlCallbacks` gains, under the host, the nearest declarer's method for each callback name; an unresolved name adds nothing |
| Setup.SetupAndroid.RegisterViews | src/averroes/android/SetupAndroid.java:208-211 | `xmlCallbacks` gains, under the host, the registered callbacks of each custom view |
| Setup.SetupAndroid.FindCallbackMethod | src/averroes/android/SetupAndroid.java:186-202 | the walk returns the nearest class in the host's chain declaring the sub-signature, or None when it reaches a class with no superclass |
| Setup.SetupAndroid.RegisterCallbackMethodsForView | src/averroes/android/SetupAndroid.java:226-267 | `xmlCallbacks` gains, under the host, exactly the view's callbacks (nothing for `android.*` hosts or views, or for a class that is not a View) |
| Setup.SetupAndroid.AddOverridingMethods | src/averroes/android/SetupAndroid.java:261-266 | `xmlCallbacks` gains, under the host, the view's non-constructors whose sub-signature is a system sub-signature |
| Setup.SetupAndroid.IsView | src/averroes/android/SetupAndroid.java:234-246 | true iff android.view.View is in the view's chain at a position other than its root |
| Setup.SetupAndroid.SystemMethods | src/averroes/android/SetupAndroid.java:252-259 | the sub-signatures of the non-constructors of the view's `android.*` strict superclasses |
| Setup.SetupAndroid.PlatformMethods | src/averroes/android/SetupAndroid.java:254-259 | the sub-signatures of the non-constructors of the `android.*` classes of a class list |
| Setup.SetupAndroid.NonConstructorSubSigs | src/averroes/android/SetupAndroid.java:256-258 | the sub-signatures of the non-constructors of a method list |
| Setup.SetupAndroid.CreateEntryPointCreator | src/averroes/android/SetupAndroid.java:278-290 | the components list holds each entry point exactly once; the signature map has the same keys as `xmlCallbacks`; each class's list has one entry per method and holds exactly the signatures of that class's methods |
| Setup.SetupAndroid.ListOf | src/averroes/android/SetupAndroid.java:279-280 | a list holding each element of the set exactly once |
| Setup.SetupAndroid.SignatureList | src/averroes/android/SetupAndroid.java:283-286 | a list with one entry per method, holding exactly the methods' signatures |

## Left out

- The `v()` singleton and the private constructor (SetupAndroid.java:81-115) read the manifest and set Soot options. The model's constructor takes the entry-point classes as a parameter, and the API version is not modelled.
- `getDummyMainMethod` (117-130) and the entry-point creator's `createDummyMain` are not modelled. `AndroidEntryPointCreator` is not part of this model, so `CreateEntryPointCreator` returns the components list and the signature map the creator would receive.
- `findXmlCallbacks` and the Soot scene loading in `calculateCallbackMethodsFast` (132-158) are not modelled. `CalculateCallbackMethods` starts from an already loaded scene.
- The `ARSCFileParser` and `LayoutFileParser` internals are not part of this model. Their outputs are inputs: a resource table from id to string or other resource, callback names per layout file, and custom view classes per layout file.
- `getRawDex`, `getReferencedApplicationClassCount` and `getReferencedApplicationMethodCount` (351-408) are left out, and so is `src/averroes/util/DexUtils.java`. They rely on dex parsing, regular expressions and zip I/O.
- The `System.err` diagnostics (197-198, 213) are dropped. The model keeps only their effect: nothing is added.
- Iteration order is not modelled. `HashMap` and `HashSet` fix no iteration order, and the model leaves it open: every result is a set or a map, and the lists `CreateEntryPointCreator` builds are specified up to order.
- Extracting a method name from a sub-signature, and Soot's resolution of an invoke to its declaring class, are not modelled. An invoke carries both as data (`calleeName`, `calleeClass`).
- `Scene.v().getSootClass` on an unknown name is not modelled. `CollectXmlBasedCallbackMethods` requires every key of `layoutClasses` to be a loaded class, and `CalculateCallbackMethods` proves that the keys stay loaded classes.
- Setup.SetupAndroid.CreateEntryPointCreator: the signature format is taken to be `<class: sub-signature>`; `SootMethodAndClass.getSignature` is not part of this model.
- Layout ids are unbounded integers rather than Java's 32-bit `int`. No arithmetic is done on them.
- Interfaces and phantom classes are not modelled. Every class in the scene has at most one superclass, and every superclass is loaded.
- Platform classes are filtered only in `registerCallbackMethodsForView` (228-230). A named callback is filed under any host that binds a layout, and the class it resolves to may be an `android.*` superclass of the host. `XmlCallbacksDeclared` states what the code does guarantee.
- Only the methods the view class itself declares are scanned for overrides (262), not the methods it inherits.
