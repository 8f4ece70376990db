/** The functions that a flow calls: finding and renaming them at every depth (src/flows/FlowValidator.ts). */
module FlowReferences {
  import opened Strings
  import opened FlowEngine
  import FlowValidator

  // ---------------------------------------------------------------- what is referenced

  /** Every callee of the tree, in order, as written. */
  function Callees(states: seq<Entry>): seq<string>
    decreases states, 1
  {
    if states == [] then [] else StateCallees(states[0].state) + Callees(states[1..])
  }

  function StateCallees(state: State): seq<string>
    decreases state, 1
  {
    match state.kind
    case Task(callee) => [callee]
    case Map(each) => Callees(each.states)
    case Parallel(branches) => BranchCallees(branches)
    case _ => []
  }

  function BranchCallees(branches: seq<Definition>): seq<string>
    decreases branches, 1
  {
    if branches == [] then [] else Callees(branches[0].states) + BranchCallees(branches[1..])
  }

  /** The names in a list of callees: trimmed, and without blanks. */
  function Names(callees: seq<string>): set<string> {
    set i | 0 <= i < |callees| && Trim(callees[i]) != "" :: Trim(callees[i])
  }

  lemma NamesConcat(a: seq<string>, b: seq<string>)
    ensures Names(a + b) == Names(a) + Names(b)
  {
    forall x | x in Names(a) + Names(b) ensures x in Names(a + b) {
      if x in Names(a) {
        var i :| 0 <= i < |a| && Trim(a[i]) != "" && Trim(a[i]) == x;
        assert (a + b)[i] == a[i];
      } else {
        var i :| 0 <= i < |b| && Trim(b[i]) != "" && Trim(b[i]) == x;
        assert (a + b)[|a| + i] == b[i];
      }
    }
  }

  /** scanStates: adds what it finds to the set. */
  method ScanStates(states: seq<Entry>, referenced: set<string>) returns (found: set<string>)
    ensures found == referenced + Names(Callees(states))
    decreases states, 1
  {
    found := referenced;
    var k := 0;
    while k < |states|
      invariant 0 <= k <= |states|
      invariant found + Names(Callees(states[k..])) == referenced + Names(Callees(states))
    {
      assert states[k..][0] == states[k] && states[k..][1..] == states[k + 1..];
      NamesConcat(StateCallees(states[k].state), Callees(states[k + 1..]));
      found := ScanState(states[k].state, found);
      k := k + 1;
    }
    assert Names(Callees(states[k..])) == {};
  }

  method ScanState(state: State, referenced: set<string>) returns (found: set<string>)
    ensures found == referenced + Names(StateCallees(state))
    decreases state, 1
  {
    found := referenced;
    match state.kind {
      case Task(callee) =>
        OneName(callee);
        if Trim(callee) != "" {
          found := found + {Trim(callee)};
        }
      case Map(each) => found := ScanStates(each.states, found);
      case Parallel(branches) =>
        var k := 0;
        while k < |branches|
          invariant 0 <= k <= |branches|
          invariant found + Names(BranchCallees(branches[k..])) == referenced + Names(BranchCallees(branches))
        {
          assert branches[k..][0] == branches[k] && branches[k..][1..] == branches[k + 1..];
          NamesConcat(Callees(branches[k].states), BranchCallees(branches[k + 1..]));
          found := ScanStates(branches[k].states, found);
          k := k + 1;
        }
        assert Names(BranchCallees(branches[k..])) == {};
      case _ =>
    }
  }

  lemma OneName(callee: string)
    ensures Names([callee]) == if Trim(callee) != "" then {Trim(callee)} else {}
  {
    assert [callee][0] == callee;
  }

  // ---------------------------------------------------------------- editing a definition

  /** Calls to `from` become calls to `to`; `strip` removes the transitions of terminal states, as validation does. */
  datatype Edit = Edit(from: string, to: string, strip: bool)

  function Apply(e: Edit, callee: string): string {
    if callee == e.from then e.to else callee
  }

  function ApplyAll(e: Edit, callees: seq<string>): seq<string> {
    seq(|callees|, i requires 0 <= i < |callees| => Apply(e, callees[i]))
  }

  function EditStates(states: seq<Entry>, e: Edit): (r: seq<Entry>)
    ensures |r| == |states|
    decreases states, 1
  {
    if states == [] then []
    else [Entry(states[0].name, EditState(states[0].state, e))] + EditStates(states[1..], e)
  }

  function EditState(state: State, e: Edit): State
    decreases state, 1
  {
    match state.kind
    case Task(callee) => state.(kind := Task(Apply(e, callee)))
    case Map(each) => state.(kind := Map(each.(states := EditStates(each.states, e))))
    case Parallel(branches) => state.(kind := Parallel(EditBranches(branches, e)))
    case Succeed => Stripped(state, e.strip)
    case Fail(_) => Stripped(state, e.strip)
    case _ => state
  }

  function Stripped(state: State, strip: bool): State {
    if strip then state.(next := if FlowValidator.Given(state.next) then None else state.next, end := false) else state
  }

  function EditBranches(branches: seq<Definition>, e: Edit): (r: seq<Definition>)
    ensures |r| == |branches|
    decreases branches, 1
  {
    if branches == [] then []
    else [branches[0].(states := EditStates(branches[0].states, e))] + EditBranches(branches[1..], e)
  }

  function EditFlow(def: Definition, e: Edit): Definition {
    def.(states := EditStates(def.states, e))
  }

  function Renamed(def: Definition, from: string, to: string): Definition {
    EditFlow(def, Edit(from, to, false))
  }

  /** The definition as validation leaves it. */
  function Normalized(def: Definition): Definition {
    EditFlow(def, Edit("", "", true))
  }

  /** mutateStates: the changed states, and whether anything was changed. */
  method RenameStates(states: seq<Entry>, from: string, to: string) returns (renamed: seq<Entry>, modified: bool)
    ensures renamed == EditStates(states, Edit(from, to, false))
    ensures modified <==> from in Callees(states)
    decreases states, 1
  {
    renamed, modified := [], false;
    ghost var e := Edit(from, to, false);
    var k := 0;
    while k < |states|
      invariant 0 <= k <= |states|
      invariant renamed + EditStates(states[k..], e) == EditStates(states, e)
      invariant modified || from in Callees(states[k..]) <==> from in Callees(states)
    {
      assert states[k..][0] == states[k] && states[k..][1..] == states[k + 1..];
      var state, changed := RenameState(states[k].state, from, to);
      renamed := renamed + [Entry(states[k].name, state)];
      modified := modified || changed;
      k := k + 1;
    }
    assert states[k..] == [];
  }

  method RenameState(state: State, from: string, to: string) returns (renamed: State, modified: bool)
    ensures renamed == EditState(state, Edit(from, to, false))
    ensures modified <==> from in StateCallees(state)
    decreases state, 1
  {
    renamed, modified := state, false;
    match state.kind {
      case Task(callee) =>
        if callee == from {
          renamed, modified := state.(kind := Task(to)), true;
        }
      case Map(each) =>
        var states, changed := RenameStates(each.states, from, to);
        renamed, modified := state.(kind := Map(each.(states := states))), changed;
      case Parallel(branches) =>
        var edited, changed := RenameBranches(branches, from, to);
        renamed, modified := state.(kind := Parallel(edited)), changed;
      case _ =>
    }
  }

  method RenameBranches(branches: seq<Definition>, from: string, to: string)
    returns (renamed: seq<Definition>, modified: bool)
    ensures renamed == EditBranches(branches, Edit(from, to, false))
    ensures modified <==> from in BranchCallees(branches)
    decreases branches, 1
  {
    renamed, modified := [], false;
    ghost var e := Edit(from, to, false);
    var k := 0;
    while k < |branches|
      invariant 0 <= k <= |branches|
      invariant renamed + EditBranches(branches[k..], e) == EditBranches(branches, e)
      invariant modified || from in BranchCallees(branches[k..]) <==> from in BranchCallees(branches)
    {
      assert branches[k..][0] == branches[k] && branches[k..][1..] == branches[k + 1..];
      var states, changed := RenameStates(branches[k].states, from, to);
      renamed := renamed + [branches[k].(states := states)];
      modified := modified || changed;
      k := k + 1;
    }
    assert branches[k..] == [];
  }

  // ---------------------------------------------------------------- what an edit changes

  lemma ApplyAllConcat(e: Edit, a: seq<string>, b: seq<string>)
    ensures ApplyAll(e, a + b) == ApplyAll(e, a) + ApplyAll(e, b)
  {
  }

  lemma {:induction false} EditedCallees(states: seq<Entry>, e: Edit)
    ensures Callees(EditStates(states, e)) == ApplyAll(e, Callees(states))
    decreases states, 1
  {
    if states != [] {
      EditedStateCallees(states[0].state, e);
      EditedCallees(states[1..], e);
      ApplyAllConcat(e, StateCallees(states[0].state), Callees(states[1..]));
      assert EditStates(states, e)[1..] == EditStates(states[1..], e);
    }
  }

  lemma {:induction false} EditedStateCallees(state: State, e: Edit)
    ensures StateCallees(EditState(state, e)) == ApplyAll(e, StateCallees(state))
    decreases state, 1
  {
    match state.kind
    case Map(each) => EditedCallees(each.states, e);
    case Parallel(branches) => EditedBranchCallees(branches, e);
    case _ =>
  }

  lemma {:induction false} EditedBranchCallees(branches: seq<Definition>, e: Edit)
    ensures BranchCallees(EditBranches(branches, e)) == ApplyAll(e, BranchCallees(branches))
    decreases branches, 1
  {
    if branches != [] {
      EditedCallees(branches[0].states, e);
      EditedBranchCallees(branches[1..], e);
      ApplyAllConcat(e, Callees(branches[0].states), BranchCallees(branches[1..]));
      assert EditBranches(branches, e)[1..] == EditBranches(branches[1..], e);
    }
  }

  lemma FixedSplits(a: seq<string>, b: seq<string>, e: Edit)
    requires ApplyAll(e, a + b) == a + b
    ensures ApplyAll(e, a) == a && ApplyAll(e, b) == b
  {
    ApplyAllConcat(e, a, b);
    var x, y := ApplyAll(e, a), ApplyAll(e, b);
    assert x == (x + y)[..|a|] && y == (x + y)[|a|..] && a == (a + b)[..|a|] && b == (a + b)[|a|..];
  }

  /** An edit that changes no callee changes nothing. */
  lemma {:induction false} FixedStates(states: seq<Entry>, e: Edit)
    requires !e.strip && ApplyAll(e, Callees(states)) == Callees(states)
    ensures EditStates(states, e) == states
    decreases states, 1
  {
    if states != [] {
      FixedSplits(StateCallees(states[0].state), Callees(states[1..]), e);
      FixedState(states[0].state, e);
      FixedStates(states[1..], e);
    }
  }

  lemma {:induction false} FixedState(state: State, e: Edit)
    requires !e.strip && ApplyAll(e, StateCallees(state)) == StateCallees(state)
    ensures EditState(state, e) == state
    decreases state, 1
  {
    match state.kind
    case Task(callee) => assert ApplyAll(e, [callee])[0] == Apply(e, callee);
    case Map(each) => FixedStates(each.states, e);
    case Parallel(branches) => FixedBranches(branches, e);
    case _ =>
  }

  lemma {:induction false} FixedBranches(branches: seq<Definition>, e: Edit)
    requires !e.strip && ApplyAll(e, BranchCallees(branches)) == BranchCallees(branches)
    ensures EditBranches(branches, e) == branches
    decreases branches, 1
  {
    if branches != [] {
      FixedSplits(Callees(branches[0].states), BranchCallees(branches[1..]), e);
      FixedStates(branches[0].states, e);
      FixedBranches(branches[1..], e);
    }
  }

  /** Two edits that together change no callee undo each other. */
  lemma {:induction false} UndoneStates(states: seq<Entry>, e: Edit, u: Edit)
    requires !e.strip && !u.strip && ApplyAll(u, ApplyAll(e, Callees(states))) == Callees(states)
    ensures EditStates(EditStates(states, e), u) == states
    decreases states, 1
  {
    if states != [] {
      var a, b := StateCallees(states[0].state), Callees(states[1..]);
      UndoSplits(a, b, e, u);
      UndoneState(states[0].state, e, u);
      UndoneStates(states[1..], e, u);
      assert EditStates(states, e)[1..] == EditStates(states[1..], e);
    }
  }

  lemma UndoSplits(a: seq<string>, b: seq<string>, e: Edit, u: Edit)
    requires ApplyAll(u, ApplyAll(e, a + b)) == a + b
    ensures ApplyAll(u, ApplyAll(e, a)) == a && ApplyAll(u, ApplyAll(e, b)) == b
  {
    ApplyAllConcat(e, a, b);
    ApplyAllConcat(u, ApplyAll(e, a), ApplyAll(e, b));
    var x, y := ApplyAll(u, ApplyAll(e, a)), ApplyAll(u, ApplyAll(e, b));
    assert x == (x + y)[..|a|] && y == (x + y)[|a|..] && a == (a + b)[..|a|] && b == (a + b)[|a|..];
  }

  lemma {:induction false} UndoneState(state: State, e: Edit, u: Edit)
    requires !e.strip && !u.strip && ApplyAll(u, ApplyAll(e, StateCallees(state))) == StateCallees(state)
    ensures EditState(EditState(state, e), u) == state
    decreases state, 1
  {
    match state.kind
    case Task(callee) => assert ApplyAll(u, ApplyAll(e, [callee]))[0] == Apply(u, Apply(e, callee));
    case Map(each) => UndoneStates(each.states, e, u);
    case Parallel(branches) => UndoneBranches(branches, e, u);
    case _ =>
  }

  lemma {:induction false} UndoneBranches(branches: seq<Definition>, e: Edit, u: Edit)
    requires !e.strip && !u.strip && ApplyAll(u, ApplyAll(e, BranchCallees(branches))) == BranchCallees(branches)
    ensures EditBranches(EditBranches(branches, e), u) == branches
    decreases branches, 1
  {
    if branches != [] {
      var a, b := Callees(branches[0].states), BranchCallees(branches[1..]);
      UndoSplits(a, b, e, u);
      UndoneStates(branches[0].states, e, u);
      UndoneBranches(branches[1..], e, u);
      assert EditBranches(branches, e)[1..] == EditBranches(branches[1..], e);
    }
  }

  /** Renaming back gives the very same definition, unless the new name was in use before. */
  lemma RenameUndoneIff(def: Definition, from: string, to: string)
    ensures Renamed(Renamed(def, from, to), to, from) == def <==> from == to || to !in Callees(def.states)
  {
    var e, u, cs := Edit(from, to, false), Edit(to, from, false), Callees(def.states);
    EditedCallees(def.states, e);
    EditedCallees(EditStates(def.states, e), u);
    if from == to || to !in cs {
      forall i | 0 <= i < |cs| ensures Apply(u, Apply(e, cs[i])) == cs[i] { assert cs[i] in cs; }
      assert ApplyAll(u, ApplyAll(e, cs)) == cs;
      UndoneStates(def.states, e, u);
    } else {
      var i :| 0 <= i < |cs| && cs[i] == to;
      assert ApplyAll(u, ApplyAll(e, cs))[i] == from;
    }
  }

  // ---------------------------------------------------------------- extraction after renaming

  function Image(names: set<string>, from: string, to: string): set<string> {
    set x | x in names :: if x == from then to else x
  }

  /** A reference to the name with white space around it: extraction sees it, renaming does not. */
  predicate Padded(callees: seq<string>, name: string) {
    exists i :: 0 <= i < |callees| && callees[i] != name && Trim(callees[i]) == name
  }

  /**
   * For names without white space around them, extraction after renaming is the image of extraction before, if and only
   * if no reference is padded.
   */
  lemma RenameMapsNamesIff(def: Definition, from: string, to: string)
    requires Trim(from) == from && from != "" && Trim(to) == to && to != "" && from != to
    ensures Names(Callees(Renamed(def, from, to).states)) == Image(Names(Callees(def.states)), from, to)
      <==> !Padded(Callees(def.states), from)
  {
    var cs, e := Callees(def.states), Edit(from, to, false);
    EditedCallees(def.states, e);
    var after := ApplyAll(e, cs);
    if Padded(cs, from) {
      var i :| 0 <= i < |cs| && cs[i] != from && Trim(cs[i]) == from;
      assert after[i] == cs[i];
      assert from in Names(after) && from !in Image(Names(cs), from, to);
    } else {
      forall i | 0 <= i < |cs| ensures Trim(after[i]) == (if Trim(cs[i]) == from then to else Trim(cs[i])) {
      }
      NamesMapped(cs, after, from, to);
    }
  }

  lemma NamesMapped(cs: seq<string>, after: seq<string>, from: string, to: string)
    requires from != "" && to != "" && |after| == |cs|
    requires forall i :: 0 <= i < |cs| ==> Trim(after[i]) == (if Trim(cs[i]) == from then to else Trim(cs[i]))
    ensures Names(after) == Image(Names(cs), from, to)
  {
    forall x | x in Names(after) ensures x in Image(Names(cs), from, to) {
      var i :| 0 <= i < |after| && Trim(after[i]) != "" && Trim(after[i]) == x;
      assert Trim(cs[i]) in Names(cs);
    }
    forall x | x in Image(Names(cs), from, to) ensures x in Names(after) {
      var y :| y in Names(cs) && x == (if y == from then to else y);
      var i :| 0 <= i < |cs| && Trim(cs[i]) != "" && Trim(cs[i]) == y;
      assert Trim(after[i]) == x;
    }
  }

  // ---------------------------------------------------------------- edited definitions validate

  lemma {:induction false} KeysKept(states: seq<Entry>, e: Edit)
    ensures Keys(EditStates(states, e)) == Keys(states)
    ensures forall i :: 0 <= i < |states| ==>
      EditStates(states, e)[i].name == states[i].name && EditStates(states, e)[i].state == EditState(states[i].state, e)
    decreases |states|
  {
    var edited := EditStates(states, e);
    if states != [] {
      KeysKept(states[1..], e);
      assert edited[1..] == EditStates(states[1..], e);
      forall i | 0 <= i < |states|
        ensures edited[i].name == states[i].name && edited[i].state == EditState(states[i].state, e)
      {
        if i > 0 { assert edited[i] == edited[1..][i - 1] && states[i] == states[1..][i - 1]; }
      }
      forall x ensures x in Keys(edited) <==> x in Keys(states) {
        if x in Keys(edited) {
          var i :| 0 <= i < |edited| && edited[i].name == x;
          assert states[i].name == x;
        }
        if x in Keys(states) {
          var i :| 0 <= i < |states| && states[i].name == x;
          assert edited[i].name == x;
        }
      }
    }
  }

  /** An edit touches neither the names of a flow nor its catch policies. */
  lemma {:induction false} TargetsKept(states: seq<Entry>, e: Edit)
    ensures CatchTargets(EditStates(states, e)) == CatchTargets(states)
  {
    if states != [] {
      assert EditStates(states, e)[1..] == EditStates(states[1..], e);
      TargetsKept(states[1..], e);
    }
  }

  lemma ScopeKept(def: Definition, e: Edit)
    ensures ScopeOf(EditFlow(def, e)) == ScopeOf(def)
  {
    KeysKept(def.states, e);
    TargetsKept(def.states, e);
  }

  /** An accepted definition is accepted again after normalisation, and after a renaming to a name that is not blank. */
  lemma {:induction false} EditedValidates(def: Definition, e: Edit)
    requires FlowValidator.Validate(def) && (Trim(e.to) != "" || e.from == "")
    ensures FlowValidator.Validate(EditFlow(def, e))
    decreases def, 1
  {
    KeysKept(def.states, e);
    var keys, edited := Keys(def.states), EditStates(def.states, e);
    FlowValidator.LookupIffKey(def.states, def.startAt);
    FlowValidator.LookupIffKey(edited, def.startAt);
    forall i | 0 <= i < |edited| ensures FlowValidator.ValidateState(edited[i].state, keys) {
      EditedStateValidates(def.states[i].state, keys, e);
    }
  }

  lemma {:induction false} EditedStateValidates(state: State, keys: set<string>, e: Edit)
    requires FlowValidator.ValidateState(state, keys) && (Trim(e.to) != "" || e.from == "")
    ensures FlowValidator.ValidateState(EditState(state, e), keys)
    decreases state, 1
  {
    match state.kind
    case Map(each) => EditedValidates(each, e);
    case Parallel(branches) =>
      forall i | 0 <= i < |branches| ensures FlowValidator.Validate(EditBranches(branches, e)[i]) {
        EditedBranch(branches, e, i);
        EditedValidates(branches[i], e);
      }
    case _ =>
  }

  lemma {:induction false} EditedBranch(branches: seq<Definition>, e: Edit, i: nat)
    requires i < |branches|
    ensures EditBranches(branches, e)[i] == EditFlow(branches[i], e)
    decreases |branches|
  {
    if i > 0 {
      EditedBranch(branches[1..], e, i - 1);
    }
  }
}
