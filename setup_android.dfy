/**
 * The XML-callback resolver of SetupAndroid: the two maps it fills in place,
 * the walks that fill them, and the flattening handed to the entry-point
 * creator.
 */
module Setup {
  import opened Wrappers
  import opened MapOfSets
  import opened Scene
  import opened Callbacks

  /** What the entry-point creator is given: the entry components and each class's callback signatures. */
  datatype EntryPointCreator = EntryPointCreator(components: seq<string>, callbackFunctions: map<string, seq<string>>)

  /** A method's full signature, "<class: sub-signature>". */
  function Signature(m: MethodRef): string
  {
    "<" + m.cls + ": " + m.subSig + ">"
  }

  ghost function Signatures(ms: set<MethodRef>): set<string>
  {
    set m | m in ms :: Signature(m)
  }

  class SetupAndroid {
    /** The entry-point component classes declared in the manifest. */
    var entrypoints: set<string>
    /** Hosting class name to its XML callbacks. */
    var xmlCallbacks: map<string, set<MethodRef>>
    /** Class name to the ids of the layouts it binds with setContentView. */
    var layoutClasses: map<string, set<int>>

    /** A key of either map is only created together with its first element. */
    ghost predicate Valid()
      reads this
    {
      NoEmptySets(xmlCallbacks) && NoEmptySets(layoutClasses)
    }

    constructor (entrypoints: set<string>)
      ensures Valid()
      ensures this.entrypoints == entrypoints && xmlCallbacks == map[] && layoutClasses == map[]
    {
      this.entrypoints := entrypoints;
      xmlCallbacks := map[];
      layoutClasses := map[];
    }

    /** Files `callbackMethod` under `layoutClass`, creating its set if absent. */
    method AddCallbackMethod(layoutClass: string, callbackMethod: MethodRef)
      requires Valid()
      modifies this`xmlCallbacks
      ensures Valid()
      ensures xmlCallbacks == Insert(old(xmlCallbacks), layoutClass, callbackMethod)
      ensures Pairs(xmlCallbacks) == old(Pairs(xmlCallbacks)) + {(layoutClass, callbackMethod)}
    {
      if layoutClass !in xmlCallbacks {
        xmlCallbacks := xmlCallbacks[layoutClass := {}];
      }
      xmlCallbacks := xmlCallbacks[layoutClass := xmlCallbacks[layoutClass] + {callbackMethod}];
      assert xmlCallbacks == Insert(old(xmlCallbacks), layoutClass, callbackMethod);
      PairsOfInsert(old(xmlCallbacks), layoutClass, callbackMethod);
    }

    /**
     * One resolution run over an already loaded scene: bind layouts to the
     * application classes `apps`, then collect the callbacks of every bound
     * layout. Afterwards `layoutClasses` holds the bindings of `apps` and
     * `xmlCallbacks` the callbacks of every class `layoutClasses` holds.
     */
    method CalculateCallbackMethods(h: Hierarchy, apps: seq<string>, resources: map<int, Resource>, lfp: LayoutInfo)
      requires Valid() && WellFormed(h) && ControlsKnown(h, lfp)
      requires forall c :: c in apps ==> c in h
      requires layoutClasses.Keys <= h.Keys
      modifies this`layoutClasses, this`xmlCallbacks
      ensures Valid()
      ensures Pairs(layoutClasses) == old(Pairs(layoutClasses)) + LayoutBindings(h, apps)
      ensures layoutClasses.Keys <= h.Keys
      ensures Pairs(xmlCallbacks) ==
        old(Pairs(xmlCallbacks)) + XmlCallbackPairs(h, resources, lfp, layoutClasses, layoutClasses.Keys)
    {
      ghost var before := layoutClasses;
      FindClassLayoutMappings(h, apps);
      KeysOfPairs(before);
      KeysOfPairs(layoutClasses);
      forall p | p in Pairs(layoutClasses)
        ensures p.0 in h
      {
        if p in Pairs(before) {
          assert p.0 in KeysOf(Pairs(before));
        }
      }
      CollectXmlBasedCallbackMethods(h, resources, lfp);
    }

    /**
     * Two resolution runs on the same inputs: the second leaves both maps
     * as the first left them. `lc1` and `xc1` are the maps after the first.
     */
    method RepeatedRun(h: Hierarchy, apps: seq<string>, resources: map<int, Resource>, lfp: LayoutInfo)
      returns (ghost lc1: map<string, set<int>>, ghost xc1: map<string, set<MethodRef>>)
      requires Valid() && WellFormed(h) && ControlsKnown(h, lfp)
      requires forall c :: c in apps ==> c in h
      requires layoutClasses.Keys <= h.Keys
      modifies this`layoutClasses, this`xmlCallbacks
      ensures Valid()
      ensures Pairs(lc1) == old(Pairs(layoutClasses)) + LayoutBindings(h, apps)
      ensures lc1.Keys <= h.Keys
      ensures Pairs(xc1) == old(Pairs(xmlCallbacks)) + XmlCallbackPairs(h, resources, lfp, lc1, lc1.Keys)
      ensures layoutClasses == lc1 && xmlCallbacks == xc1
    {
      CalculateCallbackMethods(h, apps, resources, lfp);
      lc1, xc1 := layoutClasses, xmlCallbacks;
      CalculateCallbackMethods(h, apps, resources, lfp);
      AddingAgainChangesNothing(lc1, layoutClasses, LayoutBindings(h, apps));
      AddingAgainChangesNothing(xc1, xmlCallbacks, XmlCallbackPairs(h, resources, lfp, lc1, lc1.Keys));
    }

    // -------------------------------------------------------------------
    // findClassLayoutMappings
    // -------------------------------------------------------------------

    /**
     * Records, for every concrete method of every concrete class among
     * `apps`, the integer-constant arguments of its setContentView calls.
     */
    method FindClassLayoutMappings(h: Hierarchy, apps: seq<string>)
      requires Valid() && WellFormed(h)
      requires forall c :: c in apps ==> c in h
      modifies this`layoutClasses
      ensures Valid()
      ensures Pairs(layoutClasses) == old(Pairs(layoutClasses)) + LayoutBindings(h, apps)
    {
      for i := 0 to |apps|
        invariant Valid()
        invariant Pairs(layoutClasses) == old(Pairs(layoutClasses)) + LayoutBindings(h, apps[..i])
      {
        var sc := apps[i];
        ghost var before := Pairs(layoutClasses);
        if h[sc].isConcrete {
          var methods := h[sc].methods;
          for j := 0 to |methods|
            invariant Valid()
            invariant Pairs(layoutClasses) == before + Tag(sc, MethodsLayoutIds(h, methods[..j]))
          {
            var sm := methods[j];
            ghost var mid := Pairs(layoutClasses);
            if sm.isConcrete {
              ScanBody(h, sc, sm.body);
            }
            assert methods[..j + 1] == methods[..j] + [sm];
            MethodsLayoutIdsStep(h, methods[..j], sm);
            Accumulate(before, mid, Pairs(layoutClasses), sc,
                       MethodsLayoutIds(h, methods[..j]), if sm.isConcrete then BodyLayoutIds(h, sm.body) else {});
          }
          assert methods[..|methods|] == methods;
        }
        assert apps[..i + 1] == apps[..i] + [sc];
        LayoutBindingsStep(h, apps[..i], sc);
      }
      assert apps[..|apps|] == apps;
    }

    /** The units loop of findClassLayoutMappings over one concrete method's body. */
    method ScanBody(h: Hierarchy, cls: string, body: seq<Stmt>)
      requires Valid() && WellFormed(h)
      requires forall st :: st in body && st.invoke.Some? ==> st.invoke.value.calleeClass in h
      modifies this`layoutClasses
      ensures Valid()
      ensures Pairs(layoutClasses) == old(Pairs(layoutClasses)) + Tag(cls, BodyLayoutIds(h, body))
    {
      for k := 0 to |body|
        invariant Valid()
        invariant Pairs(layoutClasses) == old(Pairs(layoutClasses)) + Tag(cls, BodyLayoutIds(h, body[..k]))
      {
        var st := body[k];
        ghost var mid := Pairs(layoutClasses);
        if st.invoke.Some? {
          var inv := st.invoke.value;
          var calls := InvokesSetContentView(h, inv);
          if calls {
            AddLayoutIds(cls, inv.args);
          }
        }
        assert body[..k + 1] == body[..k] + [st];
        BodyLayoutIdsStep(h, body[..k], st);
        Accumulate(old(Pairs(layoutClasses)), mid, Pairs(layoutClasses), cls,
                   BodyLayoutIds(h, body[..k]), StmtLayoutIds(h, st));
      }
      assert body[..|body|] == body;
    }

    /** Records every integer-constant argument of a setContentView call as a layout id of `cls`. */
    method AddLayoutIds(cls: string, args: seq<Value>)
      requires Valid()
      modifies this`layoutClasses
      ensures Valid()
      ensures Pairs(layoutClasses) == old(Pairs(layoutClasses)) + Tag(cls, ConstArgs(args))
    {
      for l := 0 to |args|
        invariant Valid()
        invariant Pairs(layoutClasses) == old(Pairs(layoutClasses)) + Tag(cls, ConstArgs(args[..l]))
      {
        var val := args[l];
        ghost var mid := Pairs(layoutClasses);
        if val.IntConstant? {
          PairsOfInsert(layoutClasses, cls, val.value);
          layoutClasses := Insert(layoutClasses, cls, val.value);
        }
        assert args[..l + 1] == args[..l] + [val];
        ConstArgsStep(args[..l], val);
        Accumulate(old(Pairs(layoutClasses)), mid, Pairs(layoutClasses), cls,
                   ConstArgs(args[..l]), if val.IntConstant? then {val.value} else {});
      }
      assert args[..|args|] == args;
    }

    /**
     * Whether `inv` calls Activity's setContentView: its name is
     * setContentView, and walking up from the class declaring the callee an
     * Activity class comes before any class declaring "void setContentView(int)".
     */
    method InvokesSetContentView(h: Hierarchy, inv: Invoke) returns (b: bool)
      requires WellFormed(h) && inv.calleeClass in h
      ensures b == CallsSetContentView(h, inv)
    {
      if inv.calleeName != SetContentViewName {
        return false;
      }
      ghost var ch := Chain(h, inv.calleeClass);
      ghost var k := 0;
      var curClass: Option<string> := Some(inv.calleeClass);
      while curClass.Some?
        invariant 0 <= k <= |ch|
        invariant curClass.Some? ==> k < |ch| && curClass.value == ch[k]
        invariant curClass.None? ==> k == |ch|
        invariant forall j :: 0 <= j < k ==> !IsActivityClass(ch[j]) && !Declares(h, ch[j], SetContentViewSubSig)
        decreases |ch| - k
      {
        var c := curClass.value;
        if IsActivityClass(c) {
          assert IsActivityClass(ch[k]);
          return true;
        }
        if Declares(h, c, SetContentViewSubSig) {
          forall i | 0 <= i < |ch| && IsActivityClass(ch[i])
            ensures exists j :: 0 <= j < i && Declares(h, ch[j], SetContentViewSubSig)
          {
            assert k < i;
          }
          return false;
        }
        curClass := if h[c].super.Some? then Some(h[c].super.value) else None;
        k := k + 1;
      }
      return false;
    }

    // -------------------------------------------------------------------
    // collectXmlBasedCallbackMethods
    // -------------------------------------------------------------------

    /**
     * Resolves the callbacks of every layout every class of `layoutClasses`
     * binds, filing them under that class.
     */
    method CollectXmlBasedCallbackMethods(h: Hierarchy, resources: map<int, Resource>, lfp: LayoutInfo)
      requires Valid() && WellFormed(h) && ControlsKnown(h, lfp)
      requires layoutClasses.Keys <= h.Keys
      modifies this`xmlCallbacks
      ensures Valid()
      ensures Pairs(xmlCallbacks) ==
        old(Pairs(xmlCallbacks)) + XmlCallbackPairs(h, resources, lfp, layoutClasses, layoutClasses.Keys)
    {
      var remaining := layoutClasses.Keys;
      ghost var done: set<string> := {};
      while remaining != {}
        invariant Valid()
        invariant remaining + done == layoutClasses.Keys && remaining !! done
        invariant Pairs(xmlCallbacks) == old(Pairs(xmlCallbacks)) + XmlCallbackPairs(h, resources, lfp, layoutClasses, done)
        decreases remaining
      {
        var callbackClass :| callbackClass in remaining;
        CollectHostCallbacks(h, resources, lfp, callbackClass, layoutClasses[callbackClass]);
        XmlCallbackPairsStep(h, resources, lfp, layoutClasses, done, callbackClass);
        remaining := remaining - {callbackClass};
        done := done + {callbackClass};
      }
    }

    /** The layout ids loop of collectXmlBasedCallbackMethods for one hosting class. */
    method CollectHostCallbacks(h: Hierarchy, resources: map<int, Resource>, lfp: LayoutInfo,
                                callbackClass: string, ids: set<int>)
      requires Valid() && WellFormed(h) && callbackClass in h && ControlsKnown(h, lfp)
      modifies this`xmlCallbacks
      ensures Valid()
      ensures Pairs(xmlCallbacks) ==
        old(Pairs(xmlCallbacks)) + Tag(callbackClass, HostCallbacks(h, resources, lfp, callbackClass, ids))
    {
      var remaining := ids;
      ghost var done: set<int> := {};
      while remaining != {}
        invariant Valid()
        invariant remaining + done == ids && remaining !! done
        invariant Pairs(xmlCallbacks) ==
          old(Pairs(xmlCallbacks)) + Tag(callbackClass, HostCallbacks(h, resources, lfp, callbackClass, done))
        decreases remaining
      {
        var classId := Pick(remaining);
        ghost var mid := Pairs(xmlCallbacks);
        if classId in resources && resources[classId].StringResource? {
          var layoutFileName := resources[classId].value;
          CollectLayoutCallbacks(h, lfp, callbackClass, layoutFileName);
        }
        HostCallbacksStep(h, resources, lfp, callbackClass, done, classId);
        Accumulate(old(Pairs(xmlCallbacks)), mid, Pairs(xmlCallbacks), callbackClass,
                   HostCallbacks(h, resources, lfp, callbackClass, done),
                   IdCallbacks(h, resources, lfp, callbackClass, classId));
        remaining := remaining - {classId};
        done := done + {classId};
      }
    }

    /** The callbacks of one layout file: its named callbacks, then its custom views. */
    method CollectLayoutCallbacks(h: Hierarchy, lfp: LayoutInfo, callbackClass: string, layoutFileName: string)
      requires Valid() && WellFormed(h) && callbackClass in h && ControlsKnown(h, lfp)
      modifies this`xmlCallbacks
      ensures Valid()
      ensures Pairs(xmlCallbacks) ==
        old(Pairs(xmlCallbacks)) + Tag(callbackClass, LayoutCallbacks(h, lfp, callbackClass, layoutFileName))
    {
      if layoutFileName in lfp.callbackMethods {
        CollectNamedCallbacks(h, callbackClass, lfp.callbackMethods[layoutFileName]);
      }
      if layoutFileName in lfp.userControls {
        RegisterViews(h, callbackClass, lfp.userControls[layoutFileName]);
      }
      TagUnion(callbackClass, NamedLayoutCallbacks(h, lfp, callbackClass, layoutFileName),
               ViewLayoutCallbacks(h, lfp, callbackClass, layoutFileName));
    }

    /** Resolves each of the onClick-style `callbackMethods` for `callbackClass`. */
    method CollectNamedCallbacks(h: Hierarchy, callbackClass: string, callbackMethods: set<string>)
      requires Valid() && WellFormed(h) && callbackClass in h
      modifies this`xmlCallbacks
      ensures Valid()
      ensures Pairs(xmlCallbacks) ==
        old(Pairs(xmlCallbacks)) + Tag(callbackClass, NamesCallbacks(h, callbackClass, callbackMethods))
    {
      var remaining := callbackMethods;
      ghost var done: set<string> := {};
      while remaining != {}
        invariant Valid()
        invariant remaining + done == callbackMethods && remaining !! done
        invariant Pairs(xmlCallbacks) ==
          old(Pairs(xmlCallbacks)) + Tag(callbackClass, NamesCallbacks(h, callbackClass, done))
        decreases remaining
      {
        var methodName :| methodName in remaining;
        var subSig := CallbackSubSig(methodName);
        var callbackMethod := FindCallbackMethod(h, callbackClass, subSig);
        ghost var mid := Pairs(xmlCallbacks);
        if callbackMethod.Some? {
          AddCallbackMethod(callbackClass, MethodRef(callbackMethod.value, subSig));
        }
        NamesCallbacksStep(h, callbackClass, done, methodName);
        Accumulate(old(Pairs(xmlCallbacks)), mid, Pairs(xmlCallbacks), callbackClass,
                   NamesCallbacks(h, callbackClass, done), NamedCallbacks(h, callbackClass, methodName));
        remaining := remaining - {methodName};
        done := done + {methodName};
      }
    }

    /** Registers the callbacks of each custom view among `controls` for `callbackClass`. */
    method RegisterViews(h: Hierarchy, callbackClass: string, controls: set<string>)
      requires Valid() && WellFormed(h) && controls <= h.Keys
      modifies this`xmlCallbacks
      ensures Valid()
      ensures Pairs(xmlCallbacks) ==
        old(Pairs(xmlCallbacks)) + Tag(callbackClass, ViewsCallbacks(h, callbackClass, controls))
    {
      var remaining := controls;
      ghost var done: set<string> := {};
      while remaining != {}
        invariant Valid()
        invariant remaining + done == controls && remaining !! done
        invariant Pairs(xmlCallbacks) ==
          old(Pairs(xmlCallbacks)) + Tag(callbackClass, ViewsCallbacks(h, callbackClass, done))
        decreases remaining
      {
        var lc :| lc in remaining;
        ghost var mid := Pairs(xmlCallbacks);
        RegisterCallbackMethodsForView(h, callbackClass, lc);
        ViewsCallbacksStep(h, callbackClass, done, lc);
        Accumulate(old(Pairs(xmlCallbacks)), mid, Pairs(xmlCallbacks), callbackClass,
                   ViewsCallbacks(h, callbackClass, done), ViewCallbacks(h, callbackClass, lc));
        remaining := remaining - {lc};
        done := done + {lc};
      }
    }

    /**
     * Walks `host`'s superclass chain, starting at `host`, for the first class
     * declaring `subSig`; None when the walk reaches the root without one.
     */
    method FindCallbackMethod(h: Hierarchy, host: string, subSig: string) returns (declarer: Option<string>)
      requires WellFormed(h) && host in h
      ensures declarer == NearestDeclarer(h, host, subSig)
    {
      var currentClass := host;
      while true
        invariant currentClass in h
        invariant NearestDeclarer(h, currentClass, subSig) == NearestDeclarer(h, host, subSig)
        decreases h[currentClass].depth
      {
        if Declares(h, currentClass, subSig) {
          return Some(currentClass);
        }
        if h[currentClass].super.None? {
          return None;
        }
        assert ParentOk(h, currentClass);
        currentClass := h[currentClass].super.value;
      }
    }

    // -------------------------------------------------------------------
    // registerCallbackMethodsForView
    // -------------------------------------------------------------------

    /**
     * Files under `callbackClass` every method of custom view `viewClass` that
     * overrides a method of one of its platform superclasses.
     */
    method RegisterCallbackMethodsForView(h: Hierarchy, callbackClass: string, viewClass: string)
      requires Valid() && WellFormed(h) && viewClass in h
      modifies this`xmlCallbacks
      ensures Valid()
      ensures Pairs(xmlCallbacks) == old(Pairs(xmlCallbacks)) + Tag(callbackClass, ViewCallbacks(h, callbackClass, viewClass))
    {
      if StartsWith(callbackClass, PlatformPrefix) {
        return;
      }
      if StartsWith(viewClass, PlatformPrefix) {
        return;
      }
      var isView := IsView(h, viewClass);
      if !isView {
        return;
      }
      var systemMethods := SystemMethods(h, viewClass);
      AddOverridingMethods(callbackClass, viewClass, h[viewClass].methods, systemMethods);
    }

    /** Files under `callbackClass` each non-constructor of `methods` whose sub-signature is in `systemMethods`. */
    method AddOverridingMethods(callbackClass: string, viewClass: string, methods: seq<Method>, systemMethods: set<string>)
      requires Valid()
      modifies this`xmlCallbacks
      ensures Valid()
      ensures Pairs(xmlCallbacks) ==
        old(Pairs(xmlCallbacks)) + Tag(callbackClass, OverridingMethods(viewClass, methods, systemMethods))
    {
      for i := 0 to |methods|
        invariant Valid()
        invariant Pairs(xmlCallbacks) ==
          old(Pairs(xmlCallbacks)) + Tag(callbackClass, OverridingMethods(viewClass, methods[..i], systemMethods))
      {
        var sm := methods[i];
        ghost var mid := Pairs(xmlCallbacks);
        ghost var added: set<MethodRef> := {};
        if !sm.isConstructor && sm.subSig in systemMethods {
          AddCallbackMethod(callbackClass, MethodRef(viewClass, sm.subSig));
          added := {MethodRef(viewClass, sm.subSig)};
          TagSingleton(callbackClass, MethodRef(viewClass, sm.subSig));
        } else {
          assert Tag(callbackClass, added) == {};
        }
        assert methods[..i + 1] == methods[..i] + [sm];
        OverridingMethodsStep(viewClass, methods[..i], sm, systemMethods);
        Accumulate(old(Pairs(xmlCallbacks)), mid, Pairs(xmlCallbacks), callbackClass,
                   OverridingMethods(viewClass, methods[..i], systemMethods), added);
      }
      assert methods[..|methods|] == methods;
    }

    /**
     * Whether `viewClass` is a View: some class met while walking up its chain,
     * before reaching a class without a superclass, is android.view.View.
     */
    method IsView(h: Hierarchy, viewClass: string) returns (isView: bool)
      requires WellFormed(h) && viewClass in h
      ensures isView == IsViewClass(h, viewClass)
    {
      ghost var ch := Chain(h, viewClass);
      ghost var k := 0;
      var sc := viewClass;
      while h[sc].super.Some?
        invariant 0 <= k < |ch| && sc == ch[k]
        invariant forall j :: 0 <= j < k ==> ch[j] != ViewClass
        decreases |ch| - k
      {
        if sc == ViewClass {
          assert k < |ch| - 1;
          return true;
        }
        sc := h[sc].super.value;
        k := k + 1;
      }
      assert k == |ch| - 1;
      return false;
    }

    /** The sub-signatures of the non-constructor methods of `sc`'s platform superclasses. */
    method SystemMethods(h: Hierarchy, sc: string) returns (systemMethods: set<string>)
      requires WellFormed(h) && sc in h
      ensures systemMethods == SystemSubSigs(h, sc)
    {
      var supers := SuperclassesOf(h, sc);
      systemMethods := PlatformMethods(h, supers);
    }

    /** The sub-signatures of the non-constructor methods of the platform classes among `supers`. */
    method PlatformMethods(h: Hierarchy, supers: seq<string>) returns (systemMethods: set<string>)
      requires forall p :: p in supers ==> p in h
      ensures systemMethods == PlatformSubSigs(h, supers)
    {
      systemMethods := {};
      for i := 0 to |supers|
        invariant systemMethods == PlatformSubSigs(h, supers[..i])
      {
        var parentClass := supers[i];
        if StartsWith(parentClass, PlatformPrefix) {
          var sigs := NonConstructorSubSigs(h[parentClass].methods);
          systemMethods := systemMethods + sigs;
        }
        assert supers[..i + 1] == supers[..i] + [parentClass];
        PlatformSubSigsStep(h, supers[..i], parentClass);
      }
      assert supers[..|supers|] == supers;
    }

    /** The sub-signatures of the non-constructors among `ms`. */
    method NonConstructorSubSigs(ms: seq<Method>) returns (sigs: set<string>)
      ensures sigs == OwnSubSigs(ms)
    {
      sigs := {};
      for j := 0 to |ms|
        invariant sigs == OwnSubSigs(ms[..j])
      {
        if !ms[j].isConstructor {
          sigs := sigs + {ms[j].subSig};
        }
        assert ms[..j + 1] == ms[..j] + [ms[j]];
      }
      assert ms[..|ms|] == ms;
    }

    // -------------------------------------------------------------------
    // createEntryPointCreator
    // -------------------------------------------------------------------

    /**
     * The entry components as a list, and each class of `xmlCallbacks` with
     * the list of its callbacks' signatures.
     */
    method CreateEntryPointCreator() returns (epc: EntryPointCreator)
      ensures |epc.components| == |entrypoints|
      ensures forall c :: c in epc.components <==> c in entrypoints
      ensures epc.callbackFunctions.Keys == xmlCallbacks.Keys
      ensures forall k :: k in epc.callbackFunctions ==> |epc.callbackFunctions[k]| == |xmlCallbacks[k]|
      ensures forall k, s :: k in epc.callbackFunctions ==>
        (s in epc.callbackFunctions[k] <==> s in Signatures(xmlCallbacks[k]))
    {
      var components := ListOf(entrypoints);
      var callbackMethodSigs: map<string, seq<string>> := map[];
      var remaining := xmlCallbacks.Keys;
      while remaining != {}
        invariant remaining <= xmlCallbacks.Keys
        invariant callbackMethodSigs.Keys == xmlCallbacks.Keys - remaining
        invariant forall k :: k in callbackMethodSigs ==> |callbackMethodSigs[k]| == |xmlCallbacks[k]|
        invariant forall k, s :: k in callbackMethodSigs ==>
          (s in callbackMethodSigs[k] <==> s in Signatures(xmlCallbacks[k]))
        decreases remaining
      {
        var className :| className in remaining;
        var methodSigs := SignatureList(xmlCallbacks[className]);
        callbackMethodSigs := callbackMethodSigs[className := methodSigs];
        remaining := remaining - {className};
      }
      epc := EntryPointCreator(components, callbackMethodSigs);
    }

    /** The elements of `s` as a list, each once. */
    method ListOf(s: set<string>) returns (l: seq<string>)
      ensures |l| == |s|
      ensures forall x :: x in l <==> x in s
    {
      l := [];
      var rest := s;
      while rest != {}
        invariant rest <= s
        invariant |l| + |rest| == |s|
        invariant forall x :: x in l <==> x in s - rest
        decreases rest
      {
        var x :| x in rest;
        l := l + [x];
        rest := rest - {x};
      }
    }

    /** The signatures of `methods` as a list, one entry per method. */
    method SignatureList(methods: set<MethodRef>) returns (sigs: seq<string>)
      ensures |sigs| == |methods|
      ensures forall s :: s in sigs <==> s in Signatures(methods)
    {
      sigs := [];
      var rest := methods;
      while rest != {}
        invariant rest <= methods
        invariant |sigs| + |rest| == |methods|
        invariant forall s :: s in sigs <==> s in Signatures(methods - rest)
        decreases rest
      {
        var m :| m in rest;
        sigs := sigs + [Signature(m)];
        rest := rest - {m};
      }
    }
  }
}
