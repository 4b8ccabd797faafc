/**
 * The part of the program scene the resolver reads: classes by name, each
 * with its superclass, whether it is concrete, and its methods with their
 * statement bodies. This stands for the Soot Scene and class hierarchy.
 */
module Scene {
  import opened Wrappers

  /** An argument of an invoke expression: an integer constant or anything else. */
  datatype Value = IntConstant(value: int) | OtherValue

  /**
   * An invoke expression: the name of the invoked method, the class declaring
   * the method the call resolves to, and the arguments.
   */
  datatype Invoke = Invoke(calleeClass: string, calleeName: string, args: seq<Value>)

  /** A statement of a method body, with the invoke expression it contains, if any. */
  datatype Stmt = Stmt(invoke: Option<Invoke>)

  /** A method, known by its sub-signature, e.g. "void onClick(android.view.View)". */
  datatype Method = Method(subSig: string, isConstructor: bool, isConcrete: bool, body: seq<Stmt>)

  /**
   * A class. `depth` is the number of superclass steps from the class to the
   * root of its hierarchy; it is what makes every superclass walk finite.
   */
  datatype ClassInfo = ClassInfo(super: Option<string>, isConcrete: bool, methods: seq<Method>, depth: nat)

  /** The scene: every loaded class by its fully qualified name. */
  type Hierarchy = map<string, ClassInfo>

  /** A method by declaring class and sub-signature, as an AndroidMethod identifies it. */
  datatype MethodRef = MethodRef(cls: string, subSig: string)

  /**
   * A class's superclass is loaded and one level nearer the root; a class
   * without a superclass is a root.
   */
  ghost predicate ParentOk(h: Hierarchy, c: string)
    requires c in h
  {
    match h[c].super
    case None => h[c].depth == 0
    case Some(p) => p in h && h[p].depth + 1 == h[c].depth
  }

  /**
   * A scene is well formed when every class satisfies ParentOk and every
   * invoked method's declaring class is loaded. (The trigger keeps the
   * verifier from walking up superclasses on its own.)
   */
  ghost predicate WellFormed(h: Hierarchy)
  {
    && (forall c {:trigger ParentOk(h, c)} :: c in h ==> ParentOk(h, c))
    && (forall c, m, st :: c in h && m in h[c].methods && st in m.body && st.invoke.Some? ==>
          st.invoke.value.calleeClass in h)
  }

  predicate StartsWith(s: string, prefix: string)
  {
    |prefix| <= |s| && s[..|prefix|] == prefix
  }

  /** Whether class `c` itself declares a method with sub-signature `subSig`. */
  predicate Declares(h: Hierarchy, c: string, subSig: string)
  {
    c in h && exists m :: m in h[c].methods && m.subSig == subSig
  }

  /**
   * The superclass chain of `c`, starting at `c` itself: each entry's
   * superclass is the next one, and the walk ends at a class with no
   * superclass after exactly `depth` steps.
   */
  function Chain(h: Hierarchy, c: string): (r: seq<string>)
    requires WellFormed(h) && c in h
    ensures |r| == h[c].depth + 1 && r[0] == c
    ensures forall i :: 0 <= i < |r| ==> r[i] in h
    ensures forall i {:trigger h[r[i]]} :: 0 <= i < |r| - 1 ==> h[r[i]].super == Some(r[i + 1])
    ensures h[r[|r| - 1]].super.None?
    decreases h[c].depth
  {
    assert ParentOk(h, c);
    match h[c].super
    case None => [c]
    case Some(p) => [c] + Chain(h, p)
  }

  /** The strict superclasses of `c`, nearest first (Hierarchy.getSuperclassesOf). */
  function SuperclassesOf(h: Hierarchy, c: string): (r: seq<string>)
    requires WellFormed(h) && c in h
    ensures |r| == h[c].depth
    ensures forall p :: p in r ==> p in h && p != c
  {
    ChainDepthsDecrease(h, c);
    Chain(h, c)[1..]
  }

  /** Depths strictly decrease along a chain, so no class repeats in it. */
  lemma {:induction false} ChainDepthsDecrease(h: Hierarchy, c: string)
    requires WellFormed(h) && c in h
    ensures forall i :: 0 <= i < |Chain(h, c)| ==> h[Chain(h, c)[i]].depth == h[c].depth - i
    decreases h[c].depth
  {
    assert ParentOk(h, c);
    match h[c].super
    case None =>
    case Some(p) =>
      ChainDepthsDecrease(h, p);
      assert Chain(h, c) == [c] + Chain(h, p);
  }
}
