/**
 * The file-system converger the renderers hand their work to: a file tree as a
 * map from path to entry, the three instructions it understands, and what
 * running a list of them does.  Every instruction converges one path to a
 * state; `EffectOf` describes that per path, which is what makes a list of
 * instructions idempotent and re-runnable after a partial run.
 */
module FileSystem {

  import opened Wrappers
  import opened Json

  /** What a file holds: literal text (a secret) or a JSON document, kept as
      the structured value it serialises. */
  datatype Content =
    | Text(text: string)
    | Document(value: Value)

  datatype Entry =
    | Directory
    | File(content: Content, mode: string, owner: string, group: string)

  type Tree = map<string, Entry>

  /** A converger instruction.  A `WriteFile` without content (Ruby `content nil`)
      manages the metadata only and keeps whatever the file already holds. */
  datatype Instr =
    | EnsureDir(path: string)
    | WriteFile(path: string, content: Option<Content>, mode: string, owner: string,
                group: string, sensitive: bool)
    | Delete(path: string)

  function Get(t: Tree, p: string): Option<Entry>
  {
    if p in t then Some(t[p]) else None
  }

  /** Two trees that agree at every path are the same tree. */
  lemma Extensional(a: Tree, b: Tree)
    requires forall p :: Get(a, p) == Get(b, p)
    ensures a == b
  {
    assert forall p :: p in a <==> p in b by {
      forall p ensures p in a <==> p in b {
        assert Get(a, p).Some? <==> Get(b, p).Some?;
      }
    }
    forall p | p in a ensures a[p] == b[p] {
      assert Get(a, p) == Get(b, p);
    }
  }

  /** One converger step. */
  function Step(t: Tree, i: Instr): (r: Tree)
    ensures forall p :: Get(r, p) == Run(EffectOf(i, p), Get(t, p))
  {
    match i
    case EnsureDir(p) => t[p := Directory]
    case WriteFile(p, c, m, o, g, _) =>
      var kept := if p in t && t[p].File? then t[p].content else Text("");
      t[p := File(if c.Some? then c.value else kept, m, o, g)]
    case Delete(p) => t - {p}
  }

  /** Runs the instructions in order. */
  function Apply(t: Tree, plan: seq<Instr>): Tree
    decreases |plan|
  {
    if plan == [] then t else Apply(Step(t, plan[0]), plan[1..])
  }

  /** The paths a list of instructions names. */
  function Targets(plan: seq<Instr>): set<string>
  {
    set i | i in plan :: i.path
  }

  /** The paths of two plans run one after the other. */
  lemma TargetsConcat(a: seq<Instr>, b: seq<Instr>)
    ensures Targets(a + b) == Targets(a) + Targets(b)
  {
    assert forall i :: i in a + b <==> i in a || i in b;
  }

  /** The paths of a plan of two instructions. */
  lemma TargetsOfPair(plan: seq<Instr>)
    requires |plan| == 2
    ensures Targets(plan) == {plan[0].path, plan[1].path}
  {
    assert forall i :: i in plan <==> i == plan[0] || i == plan[1];
  }

  /** The paths of a plan of six instructions. */
  lemma TargetsOfSix(plan: seq<Instr>, p0: string, p1: string, p2: string, p3: string, p4: string, p5: string)
    requires |plan| == 6
    requires plan[0].path == p0 && plan[1].path == p1 && plan[2].path == p2
    requires plan[3].path == p3 && plan[4].path == p4 && plan[5].path == p5
    ensures Targets(plan) == {p0, p1, p2, p3, p4, p5}
  {
    assert forall i :: i in plan <==> exists j :: 0 <= j < 6 && plan[j] == i;
    forall p | p in {p0, p1, p2, p3, p4, p5} ensures p in Targets(plan) {
      if p == p0 { assert plan[0] in plan; }
      else if p == p1 { assert plan[1] in plan; }
      else if p == p2 { assert plan[2] in plan; }
      else if p == p3 { assert plan[3] in plan; }
      else if p == p4 { assert plan[4] in plan; }
      else { assert plan[5] in plan; }
    }
  }

  // ---------------------------------------------------------------------
  // Per-path view: what a list of instructions does to the entry at one path.

  datatype Effect =
    | Untouched                                         // the path keeps its entry
    | Sets(entry: Option<Entry>)                        // the path ends up with `entry`
    | Stamps(mode: string, owner: string, group: string) // a file, content kept

  function Run(e: Effect, before: Option<Entry>): Option<Entry>
  {
    match e
    case Untouched => before
    case Sets(x) => x
    case Stamps(m, o, g) =>
      var kept := if before.Some? && before.value.File? then before.value.content else Text("");
      Some(File(kept, m, o, g))
  }

  function EffectOf(i: Instr, p: string): (e: Effect)
    ensures e.Untouched? <==> i.path != p
  {
    if i.path != p then Untouched
    else match i
      case EnsureDir(_) => Sets(Some(Directory))
      case WriteFile(_, c, m, o, g, _) =>
        if c.Some? then Sets(Some(File(c.value, m, o, g))) else Stamps(m, o, g)
      case Delete(_) => Sets(None)
  }

  /** `a` followed by `b`, as one effect. */
  function Then(a: Effect, b: Effect): (r: Effect)
    ensures forall x :: Run(r, x) == Run(b, Run(a, x))
  {
    match b
    case Untouched => a
    case Sets(_) => b
    case Stamps(_, _, _) => if a.Sets? then Sets(Run(b, a.entry)) else b
  }

  function EffectOfPlan(plan: seq<Instr>, p: string): Effect
    decreases |plan|
  {
    if plan == [] then Untouched else Then(EffectOf(plan[0], p), EffectOfPlan(plan[1..], p))
  }

  lemma ThenAssociative(a: Effect, b: Effect, c: Effect)
    ensures Then(Then(a, b), c) == Then(a, Then(b, c))
  {
    match c
    case Untouched =>
    case Sets(_) =>
    case Stamps(_, _, _) =>
      match b
      case Untouched =>
      case Sets(_) =>
      case Stamps(_, _, _) =>
  }

  /** Every effect is idempotent. */
  lemma ThenIdempotent(a: Effect)
    ensures Then(a, a) == a
  {
  }

  /** The effect of a plan, split at any point. */
  lemma {:induction false} EffectOfPlanSplit(plan: seq<Instr>, k: nat, p: string)
    requires k <= |plan|
    ensures EffectOfPlan(plan, p) == Then(EffectOfPlan(plan[..k], p), EffectOfPlan(plan[k..], p))
  {
    if k == 0 {
      assert plan[k..] == plan;
    } else {
      assert plan[..k][0] == plan[0] && plan[..k][1..] == plan[1..][..k - 1];
      assert plan[k..] == plan[1..][k - 1..];
      EffectOfPlanSplit(plan[1..], k - 1, p);
      ThenAssociative(EffectOf(plan[0], p), EffectOfPlan(plan[1..][..k - 1], p),
                      EffectOfPlan(plan[1..][k - 1..], p));
    }
  }

  /** The entry at `p` after a plan is the plan's effect at `p` on the entry before. */
  lemma {:induction false} ApplyAt(t: Tree, plan: seq<Instr>, p: string)
    ensures Get(Apply(t, plan), p) == Run(EffectOfPlan(plan, p), Get(t, p))
    decreases |plan|
  {
    if plan != [] {
      ApplyAt(Step(t, plan[0]), plan[1..], p);
    }
  }

  /** Paths a plan does not name keep their entries. */
  lemma {:induction false} ApplyFrame(t: Tree, plan: seq<Instr>, p: string)
    requires p !in Targets(plan)
    ensures Get(Apply(t, plan), p) == Get(t, p)
  {
    ApplyAt(t, plan, p);
    UntouchedOutsideTargets(plan, p);
  }

  lemma {:induction false} UntouchedOutsideTargets(plan: seq<Instr>, p: string)
    requires p !in Targets(plan)
    ensures EffectOfPlan(plan, p) == Untouched
    decreases |plan|
  {
    if plan != [] {
      assert plan[0] in plan;
      assert Targets(plan[1..]) <= Targets(plan) by {
        forall i | i in plan[1..] ensures i in plan { }
      }
      UntouchedOutsideTargets(plan[1..], p);
    }
  }

  lemma {:induction false} ApplyConcat(t: Tree, a: seq<Instr>, b: seq<Instr>)
    ensures Apply(t, a + b) == Apply(Apply(t, a), b)
    decreases |a|
  {
    if a == [] {
      assert a + b == b;
    } else {
      assert (a + b)[0] == a[0] && (a + b)[1..] == a[1..] + b;
      ApplyConcat(Step(t, a[0]), a[1..], b);
    }
  }

  /**
   * The entry at `p` once the plan ran, when instruction `k` is the last one
   * naming `p`: that instruction applied to the entry the prefix left.
   */
  lemma ApplyLastTouch(t: Tree, plan: seq<Instr>, k: nat, p: string)
    requires k < |plan| && plan[k].path == p
    requires forall j :: k < j < |plan| ==> plan[j].path != p
    ensures Get(Apply(t, plan), p) == Run(EffectOf(plan[k], p), Get(Apply(t, plan[..k]), p))
  {
    var rest := plan[k + 1..];
    assert plan == plan[..k] + [plan[k]] + rest;
    ApplyConcat(t, plan[..k] + [plan[k]], rest);
    ApplyConcat(t, plan[..k], [plan[k]]);
    assert p !in Targets(rest) by {
      forall i | i in rest ensures i.path != p {
        var j :| 0 <= j < |rest| && rest[j] == i;
        assert plan[k + 1 + j] == i;
      }
    }
    ApplyFrame(Apply(t, plan[..k + 1]), rest, p);
    assert plan[..k] + [plan[k]] == plan[..k + 1];
  }

  /** `t` holds a file at `p` with these metadata, and with `content` unless that is `None`. */
  predicate HasFile(t: Tree, p: string, content: Option<Content>, mode: string, owner: string, group: string)
  {
    p in t && t[p].File? && t[p].mode == mode && t[p].owner == owner && t[p].group == group &&
    (content.Some? ==> t[p].content == content.value)
  }

  /** Instruction `k` is the last one of the plan to name its path. */
  predicate LastToName(plan: seq<Instr>, k: nat)
  {
    k < |plan| && forall j :: k < j < |plan| ==> plan[j].path != plan[k].path
  }

  /** A file written by instruction `k` and not named after it ends up as that instruction says. */
  lemma WriteLands(t: Tree, plan: seq<Instr>, k: nat)
    requires LastToName(plan, k) && plan[k].WriteFile?
    ensures var w := plan[k];
      HasFile(Apply(t, plan), w.path, w.content, w.mode, w.owner, w.group)
  {
    ApplyLastTouch(t, plan, k, plan[k].path);
  }

  /** A plan of deletions removes exactly the paths it names. */
  lemma {:induction false} ApplyDeletions(t: Tree, plan: seq<Instr>)
    requires forall i :: i in plan ==> i.Delete?
    ensures Apply(t, plan) == t - Targets(plan)
    decreases |plan|
  {
    if plan == [] {
      assert t - Targets(plan) == t;
    } else {
      assert forall i :: i in plan[1..] ==> i in plan;
      ApplyDeletions(Step(t, plan[0]), plan[1..]);
      assert Targets(plan) == {plan[0].path} + Targets(plan[1..]) by {
        forall x | x in Targets(plan) ensures x in {plan[0].path} + Targets(plan[1..]) {
          var i :| i in plan && i.path == x;
          if i != plan[0] {
            var j :| 0 <= j < |plan| && plan[j] == i;
            assert plan[1..][j - 1] == i;
          }
        }
      }
    }
  }

  /**
   * Re-running a whole plan after any prefix of it already ran (a convergence
   * that was interrupted) reaches the same tree as one uninterrupted run.
   */
  lemma ResumeAfterPartialRun(t: Tree, plan: seq<Instr>, k: nat)
    requires k <= |plan|
    ensures Apply(Apply(t, plan[..k]), plan) == Apply(t, plan)
  {
    forall p ensures Get(Apply(Apply(t, plan[..k]), plan), p) == Get(Apply(t, plan), p) {
      var pre, post := EffectOfPlan(plan[..k], p), EffectOfPlan(plan[k..], p);
      ApplyAt(Apply(t, plan[..k]), plan, p);
      ApplyAt(t, plan[..k], p);
      ApplyAt(t, plan, p);
      EffectOfPlanSplit(plan, k, p);
      ThenAssociative(pre, pre, post);
      ThenIdempotent(pre);
    }
    Extensional(Apply(Apply(t, plan[..k]), plan), Apply(t, plan));
  }

  /** Converging twice with the same plan is the same as converging once. */
  lemma ApplyIdempotent(t: Tree, plan: seq<Instr>)
    ensures Apply(Apply(t, plan), plan) == Apply(t, plan)
  {
    ResumeAfterPartialRun(t, plan, |plan|);
    assert plan[..|plan|] == plan;
  }

  // ---------------------------------------------------------------------
  // Path names.

  /** The index of the last '/' of `p`, or -1. */
  function LastSlash(p: string): (k: int)
    ensures -1 <= k < |p|
    ensures k >= 0 ==> p[k] == '/'
    ensures forall j :: k < j < |p| ==> p[j] != '/'
  {
    if p == [] then -1
    else if p[|p| - 1] == '/' then |p| - 1
    else LastSlash(p[..|p| - 1])
  }

  /** Ruby's `File.dirname` on a path without repeated or trailing slashes. */
  function Dirname(p: string): (d: string)
    ensures '/' !in p ==> d == "."
    ensures |p| > 0 && '/' in p[1..] ==>
      0 < |d| < |p| && d == p[..|d|] && p[|d|] == '/' && '/' !in p[|d| + 1..]
    ensures |p| > 0 && p[0] == '/' && '/' !in p[1..] ==> d == "/"
  {
    var k := LastSlash(p);
    if k < 0 then "."
    else if k == 0 then "/"
    else p[..k]
  }

  /** `File.dirname(File.join(dir, name))` is `dir` for a file name without '/'. */
  lemma DirnameOfJoin(dir: string, name: string)
    requires |dir| > 0 && '/' !in name
    ensures Dirname(dir + "/" + name) == dir
  {
    var p := dir + "/" + name;
    var k := LastSlash(p);
    assert p[|dir|] == '/';
    forall j | |dir| < j < |p| ensures p[j] != '/' {
      assert p[j] == name[j - |dir| - 1];
    }
    assert k == |dir|;
    assert p[..k] == dir;
  }

  /** The node's file tree, changed only by converging instructions. */
  class Disk {
    var files: Tree

    constructor (initial: Tree)
      ensures files == initial
    {
      files := initial;
    }

    /** Runs the instructions one at a time, in order. */
    method Converge(plan: seq<Instr>)
      modifies this
      ensures files == Apply(old(files), plan)
    {
      var i := 0;
      while i < |plan|
        invariant 0 <= i <= |plan|
        invariant files == Apply(old(files), plan[..i])
      {
        assert plan[..i + 1] == plan[..i] + [plan[i]];
        ApplyConcat(old(files), plan[..i], [plan[i]]);
        files := Step(files, plan[i]);
        i := i + 1;
      }
      assert plan[..i] == plan;
    }
  }
}
