/**
 * What the XML-callback resolver computes, stated over the scene: which
 * layouts a class binds with setContentView, which method an onClick-style
 * name resolves to, which methods of a custom view count as callbacks, and
 * the callbacks a whole resolution run files under each hosting class.
 */
module Callbacks {
  import opened Wrappers
  import opened Scene
  import opened MapOfSets

  const PlatformPrefix := "android."
  const ViewClass := "android.view.View"
  const ActivityClass := "android.app.Activity"
  const ActionBarActivityClass := "android.support.v7.app.ActionBarActivity"
  const SetContentViewName := "setContentView"
  const SetContentViewSubSig := "void setContentView(int)"

  /** The sub-signature an XML callback named `name` must have. */
  function CallbackSubSig(name: string): string
  {
    "void " + name + "(android.view.View)"
  }

  // ---------------------------------------------------------------------
  // Binding layouts to classes (findClassLayoutMappings, invokesSetContentView)
  // ---------------------------------------------------------------------

  predicate IsActivityClass(c: string)
  {
    c == ActivityClass || c == ActionBarActivityClass
  }

  /**
   * Walking `ch` from its start, an Activity class is met before any class
   * that declares "void setContentView(int)". A class is tested by name
   * first, so the Activity class itself may declare the method.
   */
  ghost predicate ActivityBeforeDeclarer(h: Hierarchy, ch: seq<string>)
  {
    exists i :: 0 <= i < |ch| && IsActivityClass(ch[i]) &&
      forall j :: 0 <= j < i ==> !Declares(h, ch[j], SetContentViewSubSig)
  }

  /** The invoke is a call of Activity's setContentView. */
  ghost predicate CallsSetContentView(h: Hierarchy, inv: Invoke)
    requires WellFormed(h)
  {
    && inv.calleeName == SetContentViewName
    && inv.calleeClass in h
    && ActivityBeforeDeclarer(h, Chain(h, inv.calleeClass))
  }

  /** The integer constants among some call arguments. */
  function ConstArgs(args: seq<Value>): set<int>
  {
    set a | a in args && a.IntConstant? :: a.value
  }

  /** The layout ids one statement binds. */
  ghost function StmtLayoutIds(h: Hierarchy, st: Stmt): set<int>
    requires WellFormed(h)
  {
    if st.invoke.Some? && CallsSetContentView(h, st.invoke.value) then ConstArgs(st.invoke.value.args) else {}
  }

  /** The layout ids the statements of a body bind. */
  ghost function BodyLayoutIds(h: Hierarchy, body: seq<Stmt>): set<int>
    requires WellFormed(h)
  {
    set st, id | st in body && id in StmtLayoutIds(h, st) :: id
  }

  /** The layout ids the concrete ones of some methods bind. */
  ghost function MethodsLayoutIds(h: Hierarchy, ms: seq<Method>): set<int>
    requires WellFormed(h)
  {
    set m, id | m in ms && m.isConcrete && id in BodyLayoutIds(h, m.body) :: id
  }

  /** The layout ids class `c` binds; an abstract class binds none. */
  ghost function ClassLayoutIds(h: Hierarchy, c: string): set<int>
    requires WellFormed(h) && c in h
  {
    if h[c].isConcrete then MethodsLayoutIds(h, h[c].methods) else {}
  }

  /** The (class, layout id) pairs the application classes `apps` bind. */
  ghost function LayoutBindings(h: Hierarchy, apps: seq<string>): set<(string, int)>
    requires WellFormed(h) && forall c :: c in apps ==> c in h
  {
    set c, id | c in apps && id in ClassLayoutIds(h, c) :: (c, id)
  }

  /**
   * A class binds a layout id exactly when the class is concrete and one of
   * its concrete methods has a statement calling setContentView with that id
   * as an integer-constant argument.
   */
  lemma LayoutBindingsExactly(h: Hierarchy, apps: seq<string>, c: string, id: int)
    requires WellFormed(h) && forall c :: c in apps ==> c in h
    ensures (c, id) in LayoutBindings(h, apps) <==>
      && c in apps && h[c].isConcrete
      && exists m, st :: m in h[c].methods && m.isConcrete && st in m.body && st.invoke.Some?
           && CallsSetContentView(h, st.invoke.value) && IntConstant(id) in st.invoke.value.args
  {
    if (c, id) in LayoutBindings(h, apps) {
      assert id in ClassLayoutIds(h, c);
      assert id in MethodsLayoutIds(h, h[c].methods);
      var m :| m in h[c].methods && m.isConcrete && id in BodyLayoutIds(h, m.body);
      var st :| st in m.body && id in StmtLayoutIds(h, st);
      assert st.invoke.Some?;
      var a :| a in st.invoke.value.args && a.IntConstant? && a.value == id;
      assert a == IntConstant(id);
    }
    if c in apps && h[c].isConcrete &&
       exists m, st :: m in h[c].methods && m.isConcrete && st in m.body && st.invoke.Some?
         && CallsSetContentView(h, st.invoke.value) && IntConstant(id) in st.invoke.value.args
    {
      var m, st :| m in h[c].methods && m.isConcrete && st in m.body && st.invoke.Some?
         && CallsSetContentView(h, st.invoke.value) && IntConstant(id) in st.invoke.value.args;
      assert id in ConstArgs(st.invoke.value.args);
      assert id in StmtLayoutIds(h, st);
      assert id in BodyLayoutIds(h, m.body);
      assert id in ClassLayoutIds(h, c);
    }
  }

  // ---------------------------------------------------------------------
  // Callbacks named in a layout file (onClick attributes)
  // ---------------------------------------------------------------------

  /**
   * The nearest class in `c`'s superclass chain, starting at `c` itself, that
   * declares `subSig`; None when no class in the chain does.
   */
  function NearestDeclarer(h: Hierarchy, c: string, subSig: string): Option<string>
    requires WellFormed(h) && c in h
    decreases h[c].depth
  {
    assert ParentOk(h, c);
    if Declares(h, c, subSig) then Some(c)
    else match h[c].super
      case None => None
      case Some(p) => NearestDeclarer(h, p, subSig)
  }

  /** Position `i` of chain `ch` is the first one whose class declares `subSig`. */
  ghost predicate FirstDeclarerAt(h: Hierarchy, ch: seq<string>, i: int, subSig: string)
  {
    0 <= i < |ch| && Declares(h, ch[i], subSig) && forall j :: 0 <= j < i ==> !Declares(h, ch[j], subSig)
  }

  /** No class of chain `ch` declares `subSig`. */
  ghost predicate NoneDeclares(h: Hierarchy, ch: seq<string>, subSig: string)
  {
    forall i :: 0 <= i < |ch| ==> !Declares(h, ch[i], subSig)
  }

  /**
   * NearestDeclarer finds the first declaring class of the chain, and finds
   * nothing exactly when no class of the chain declares the method.
   */
  lemma {:induction false} NearestDeclarerIsNearest(h: Hierarchy, c: string, subSig: string)
    requires WellFormed(h) && c in h
    ensures NearestDeclarer(h, c, subSig).None? <==> NoneDeclares(h, Chain(h, c), subSig)
    ensures NearestDeclarer(h, c, subSig).Some? ==>
      exists i :: FirstDeclarerAt(h, Chain(h, c), i, subSig) && Chain(h, c)[i] == NearestDeclarer(h, c, subSig).value
    decreases h[c].depth
  {
    var ch := Chain(h, c);
    assert ch[0] == c;
    if Declares(h, c, subSig) {
      assert FirstDeclarerAt(h, ch, 0, subSig);
    } else {
      match h[c].super
      case None =>
        assert ch == [c];
      case Some(p) =>
        NearestDeclarerIsNearest(h, p, subSig);
        var tail := Chain(h, p);
        assert ch == [c] + tail;
        if NearestDeclarer(h, p, subSig).Some? {
          var i :| FirstDeclarerAt(h, tail, i, subSig) && tail[i] == NearestDeclarer(h, p, subSig).value;
          assert FirstDeclarerAt(h, ch, i + 1, subSig);
        } else {
          forall i | 0 <= i < |ch| ensures !Declares(h, ch[i], subSig) {
            if i > 0 { assert ch[i] == tail[i - 1]; }
          }
        }
    }
  }

  /** The callback an onClick-style `name` resolves to for `host`: none, or one method. */
  function NamedCallbacks(h: Hierarchy, host: string, name: string): set<MethodRef>
    requires WellFormed(h) && host in h
  {
    match NearestDeclarer(h, host, CallbackSubSig(name))
    case None => {}
    case Some(d) => {MethodRef(d, CallbackSubSig(name))}
  }

  // ---------------------------------------------------------------------
  // Custom views (registerCallbackMethodsForView)
  // ---------------------------------------------------------------------

  /**
   * Some class of `v`'s chain other than its root is android.view.View; the
   * walk stops at the first class without a superclass and never tests it.
   */
  ghost predicate IsViewClass(h: Hierarchy, v: string)
    requires WellFormed(h) && v in h
  {
    exists i :: 0 <= i < |Chain(h, v)| - 1 && Chain(h, v)[i] == ViewClass
  }

  /** The sub-signatures of the non-constructors among `ms`. */
  ghost function OwnSubSigs(ms: seq<Method>): set<string>
  {
    set pm | pm in ms && !pm.isConstructor :: pm.subSig
  }

  /** Sub-signatures of the non-constructor methods of the platform classes among `ps`. */
  ghost function PlatformSubSigs(h: Hierarchy, ps: seq<string>): set<string>
    requires forall p :: p in ps ==> p in h
  {
    set p, pm | p in ps && StartsWith(p, PlatformPrefix) && pm in h[p].methods && !pm.isConstructor :: pm.subSig
  }

  /** Sub-signatures of the non-constructor methods of `v`'s platform superclasses. */
  ghost function SystemSubSigs(h: Hierarchy, v: string): set<string>
    requires WellFormed(h) && v in h
  {
    PlatformSubSigs(h, SuperclassesOf(h, v))
  }

  /** The non-constructors among `ms` whose sub-signature is in `sys`, as methods of class `v`. */
  ghost function OverridingMethods(v: string, ms: seq<Method>, sys: set<string>): set<MethodRef>
  {
    set sm | sm in ms && !sm.isConstructor && sm.subSig in sys :: MethodRef(v, sm.subSig)
  }

  /** The methods of custom view `v` that are filed as callbacks of `host`. */
  ghost function ViewCallbacks(h: Hierarchy, host: string, v: string): set<MethodRef>
    requires WellFormed(h) && v in h
  {
    if StartsWith(host, PlatformPrefix) || StartsWith(v, PlatformPrefix) || !IsViewClass(h, v) then {}
    else OverridingMethods(v, h[v].methods, SystemSubSigs(h, v))
  }

  /**
   * A view method is registered exactly when neither the host nor the view is
   * a platform class, the view really is a View, and the method is a
   * non-constructor declared in the view itself that overrides a
   * non-constructor of one of its strict platform superclasses.
   */
  lemma ViewCallbacksExactly(h: Hierarchy, host: string, v: string, m: MethodRef)
    requires WellFormed(h) && v in h
    ensures m in ViewCallbacks(h, host, v) <==>
      && !StartsWith(host, PlatformPrefix)
      && !StartsWith(v, PlatformPrefix)
      && IsViewClass(h, v)
      && m.cls == v
      && (exists sm :: sm in h[v].methods && !sm.isConstructor && sm.subSig == m.subSig)
      && (exists p, pm :: p in SuperclassesOf(h, v) && StartsWith(p, PlatformPrefix)
            && pm in h[p].methods && !pm.isConstructor && pm.subSig == m.subSig)
  {
    if m in ViewCallbacks(h, host, v) {
      var sm :| sm in h[v].methods && !sm.isConstructor && sm.subSig in SystemSubSigs(h, v) && m == MethodRef(v, sm.subSig);
      assert sm.subSig == m.subSig;
    }
  }

  // ---------------------------------------------------------------------
  // A whole resolution run (collectXmlBasedCallbackMethods)
  // ---------------------------------------------------------------------

  /** What the resource table holds for an id: a string (a layout file name) or something else. */
  datatype Resource = StringResource(value: string) | OtherResource

  /**
   * The layout parser's output: onClick-style method names per layout file,
   * and the classes of the custom views each layout file uses.
   */
  datatype LayoutInfo = LayoutInfo(callbackMethods: map<string, set<string>>, userControls: map<string, set<string>>)

  /** Every custom view class the layout parser reports is a class of the scene. */
  ghost predicate ControlsKnown(h: Hierarchy, lfp: LayoutInfo)
  {
    forall layout, v :: layout in lfp.userControls && v in lfp.userControls[layout] ==> v in h
  }

  /** The callbacks the onClick-style `names` resolve to for `host`. */
  ghost function NamesCallbacks(h: Hierarchy, host: string, names: set<string>): set<MethodRef>
    requires WellFormed(h) && host in h
  {
    set name, m | name in names && m in NamedCallbacks(h, host, name) :: m
  }

  /** The callbacks the custom views `views` contribute to `host`. */
  ghost function ViewsCallbacks(h: Hierarchy, host: string, views: set<string>): set<MethodRef>
    requires WellFormed(h) && views <= h.Keys
  {
    set v, m | v in views && m in ViewCallbacks(h, host, v) :: m
  }

  /** Callbacks named in `layout`, resolved for `host`. */
  ghost function NamedLayoutCallbacks(h: Hierarchy, lfp: LayoutInfo, host: string, layout: string): set<MethodRef>
    requires WellFormed(h) && host in h
  {
    if layout in lfp.callbackMethods then NamesCallbacks(h, host, lfp.callbackMethods[layout]) else {}
  }

  /** Callbacks contributed by the custom views of `layout`, filed under `host`. */
  ghost function ViewLayoutCallbacks(h: Hierarchy, lfp: LayoutInfo, host: string, layout: string): set<MethodRef>
    requires WellFormed(h) && ControlsKnown(h, lfp)
  {
    if layout in lfp.userControls then ViewsCallbacks(h, host, lfp.userControls[layout]) else {}
  }

  ghost function LayoutCallbacks(h: Hierarchy, lfp: LayoutInfo, host: string, layout: string): set<MethodRef>
    requires WellFormed(h) && host in h && ControlsKnown(h, lfp)
  {
    NamedLayoutCallbacks(h, lfp, host, layout) + ViewLayoutCallbacks(h, lfp, host, layout)
  }

  /** Callbacks a layout id contributes to `host`: none unless the id names a string resource. */
  ghost function IdCallbacks(h: Hierarchy, res: map<int, Resource>, lfp: LayoutInfo, host: string, id: int): set<MethodRef>
    requires WellFormed(h) && host in h && ControlsKnown(h, lfp)
  {
    if id in res && res[id].StringResource? then LayoutCallbacks(h, lfp, host, res[id].value) else {}
  }

  /** Callbacks all of `ids` contribute to `host`. */
  ghost function HostCallbacks(h: Hierarchy, res: map<int, Resource>, lfp: LayoutInfo, host: string, ids: set<int>): set<MethodRef>
    requires WellFormed(h) && host in h && ControlsKnown(h, lfp)
  {
    set id, m | id in ids && m in IdCallbacks(h, res, lfp, host, id) :: m
  }

  /** The (host, callback) pairs contributed by the layouts of the `hosts` among `lc`'s classes. */
  ghost function XmlCallbackPairs(h: Hierarchy, res: map<int, Resource>, lfp: LayoutInfo,
                                  lc: map<string, set<int>>, hosts: set<string>): set<(string, MethodRef)>
    requires WellFormed(h) && lc.Keys <= h.Keys && ControlsKnown(h, lfp)
  {
    set host, m | host in hosts && host in lc && m in HostCallbacks(h, res, lfp, host, lc[host]) :: (host, m)
  }

  /**
   * A layout id whose resource is missing or not a string contributes
   * nothing, and so does a layout file the parser reports no names or no
   * custom views for.
   */
  lemma UnknownLayoutContributesNothing(h: Hierarchy, res: map<int, Resource>, lfp: LayoutInfo, host: string, id: int)
    requires WellFormed(h) && host in h && ControlsKnown(h, lfp)
    ensures (id !in res || !res[id].StringResource?) ==> IdCallbacks(h, res, lfp, host, id) == {}
    ensures id in res && res[id].StringResource? && res[id].value !in lfp.callbackMethods ==>
      IdCallbacks(h, res, lfp, host, id) == ViewLayoutCallbacks(h, lfp, host, res[id].value)
    ensures id in res && res[id].StringResource? && res[id].value !in lfp.userControls ==>
      IdCallbacks(h, res, lfp, host, id) == NamedLayoutCallbacks(h, lfp, host, res[id].value)
  {
  }

  /**
   * Every callback a run files under a host is a method its class really
   * declares, and the host hosts a layout. The class is in the host's own
   * superclass chain, unless the callback comes from a custom view: then
   * the view is a View and neither it nor the host is a platform class.
   */
  lemma XmlCallbacksDeclared(h: Hierarchy, res: map<int, Resource>, lfp: LayoutInfo,
                             lc: map<string, set<int>>, host: string, m: MethodRef)
    requires WellFormed(h) && lc.Keys <= h.Keys && ControlsKnown(h, lfp)
    requires (host, m) in XmlCallbackPairs(h, res, lfp, lc, lc.Keys)
    ensures host in lc && m.cls in h && Declares(h, m.cls, m.subSig)
    ensures m.cls in Chain(h, host) ||
      (!StartsWith(host, PlatformPrefix) && !StartsWith(m.cls, PlatformPrefix) && IsViewClass(h, m.cls))
  {
    var id :| id in lc[host] && m in IdCallbacks(h, res, lfp, host, id);
    var layout := res[id].value;
    if m in NamedLayoutCallbacks(h, lfp, host, layout) {
      var name :| name in lfp.callbackMethods[layout] && m in NamedCallbacks(h, host, name);
      NearestDeclarerIsNearest(h, host, CallbackSubSig(name));
      var i :| FirstDeclarerAt(h, Chain(h, host), i, CallbackSubSig(name)) && Chain(h, host)[i] == m.cls;
    } else {
      var v :| v in lfp.userControls[layout] && m in ViewCallbacks(h, host, v);
      ViewCallbacksExactly(h, host, v, m);
    }
  }

  // ---------------------------------------------------------------------
  // Step lemmas: how each collection above grows by one element, which is
  // the step each of the resolver's loops takes.
  // ---------------------------------------------------------------------

  lemma ConstArgsStep(args: seq<Value>, a: Value)
    ensures ConstArgs(args + [a]) == ConstArgs(args) + (if a.IntConstant? then {a.value} else {})
  {
  }

  lemma BodyLayoutIdsStep(h: Hierarchy, body: seq<Stmt>, st: Stmt)
    requires WellFormed(h)
    ensures BodyLayoutIds(h, body + [st]) == BodyLayoutIds(h, body) + StmtLayoutIds(h, st)
  {
  }

  lemma MethodsLayoutIdsStep(h: Hierarchy, ms: seq<Method>, m: Method)
    requires WellFormed(h)
    ensures MethodsLayoutIds(h, ms + [m]) ==
      MethodsLayoutIds(h, ms) + (if m.isConcrete then BodyLayoutIds(h, m.body) else {})
  {
  }

  lemma LayoutBindingsStep(h: Hierarchy, apps: seq<string>, c: string)
    requires WellFormed(h) && c in h && forall a :: a in apps ==> a in h
    ensures LayoutBindings(h, apps + [c]) == LayoutBindings(h, apps) + Tag(c, ClassLayoutIds(h, c))
  {
  }

  lemma PlatformSubSigsStep(h: Hierarchy, ps: seq<string>, p: string)
    requires p in h && forall q :: q in ps ==> q in h
    ensures PlatformSubSigs(h, ps + [p]) == PlatformSubSigs(h, ps) +
      (if StartsWith(p, PlatformPrefix) then OwnSubSigs(h[p].methods) else {})
  {
  }

  lemma OverridingMethodsStep(v: string, ms: seq<Method>, sm: Method, sys: set<string>)
    ensures OverridingMethods(v, ms + [sm], sys) == OverridingMethods(v, ms, sys) +
      (if !sm.isConstructor && sm.subSig in sys then {MethodRef(v, sm.subSig)} else {})
  {
  }

  lemma NamesCallbacksStep(h: Hierarchy, host: string, names: set<string>, name: string)
    requires WellFormed(h) && host in h
    ensures NamesCallbacks(h, host, names + {name}) == NamesCallbacks(h, host, names) + NamedCallbacks(h, host, name)
  {
  }

  lemma ViewsCallbacksStep(h: Hierarchy, host: string, views: set<string>, v: string)
    requires WellFormed(h) && views <= h.Keys && v in h
    ensures ViewsCallbacks(h, host, views + {v}) == ViewsCallbacks(h, host, views) + ViewCallbacks(h, host, v)
  {
    var grown := ViewsCallbacks(h, host, views + {v});
    var parts := ViewsCallbacks(h, host, views) + ViewCallbacks(h, host, v);
    forall m | m in grown ensures m in parts {
      var w :| w in views + {v} && m in ViewCallbacks(h, host, w);
      if w != v {
        assert m in ViewsCallbacks(h, host, views);
      }
    }
    forall m | m in parts ensures m in grown {
      if m !in ViewCallbacks(h, host, v) {
        var w :| w in views && m in ViewCallbacks(h, host, w);
        assert w in views + {v};
      }
    }
  }

  lemma HostCallbacksStep(h: Hierarchy, res: map<int, Resource>, lfp: LayoutInfo, host: string, ids: set<int>, id: int)
    requires WellFormed(h) && host in h && ControlsKnown(h, lfp)
    ensures HostCallbacks(h, res, lfp, host, ids + {id}) ==
      HostCallbacks(h, res, lfp, host, ids) + IdCallbacks(h, res, lfp, host, id)
  {
  }

  lemma XmlCallbackPairsStep(h: Hierarchy, res: map<int, Resource>, lfp: LayoutInfo,
                             lc: map<string, set<int>>, hosts: set<string>, host: string)
    requires WellFormed(h) && lc.Keys <= h.Keys && ControlsKnown(h, lfp) && host in lc
    ensures XmlCallbackPairs(h, res, lfp, lc, hosts + {host}) ==
      XmlCallbackPairs(h, res, lfp, lc, hosts) + Tag(host, HostCallbacks(h, res, lfp, host, lc[host]))
  {
  }
}
