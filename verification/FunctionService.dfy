/** Renaming and deleting functions that flows and queues refer to (src/functions/FunctionService.ts). */
module FunctionService {
  import opened Strings
  import opened FlowEngine
  import opened FlowReferences

  datatype Function = Function(id: string, name: string)
  datatype QueueRow = QueueRow(name: string, targetFunction: Option<string>)
  datatype FlowRow = FlowRow(id: string, name: string, definition: Definition)

  // ---------------------------------------------------------------- looking functions up

  function FindById(rows: seq<Function>, id: string): Option<Function> {
    if rows == [] then None else if rows[0].id == id then Some(rows[0]) else FindById(rows[1..], id)
  }

  function FindByName(rows: seq<Function>, name: string): Option<Function> {
    if rows == [] then None else if rows[0].name == name then Some(rows[0]) else FindByName(rows[1..], name)
  }

  /** `getFunctionById(ref) || getFunctionByName(ref)`: the function that a Task state or a queue runs. */
  function Found(rows: seq<Function>, ref: string): Option<Function> {
    if FindById(rows, ref).Some? then FindById(rows, ref) else FindByName(rows, ref)
  }

  /** The other order: the function whose policy a Task state checks before the call. */
  function Checked(rows: seq<Function>, ref: string): Option<Function> {
    if FindByName(rows, ref).Some? then FindByName(rows, ref) else FindById(rows, ref)
  }

  function IdOf(found: Option<Function>): Option<string> {
    if found.Some? then Some(found.value.id) else None
  }

  function RunId(rows: seq<Function>, ref: string): Option<string> {
    IdOf(Found(rows, ref))
  }

  function CheckedId(rows: seq<Function>, ref: string): Option<string> {
    IdOf(Checked(rows, ref))
  }

  lemma SameFound(rows: seq<Function>, ref: string)
    ensures CheckedId(rows, ref).Some? <==> RunId(rows, ref).Some?
  {
  }

  predicate Distinct(rows: seq<Function>) {
    forall i, j :: 0 <= i < j < |rows| ==> rows[i].id != rows[j].id && rows[i].name != rows[j].name
  }

  /** Every row is found by its id and by its name. */
  lemma {:induction false} RowIsFound(rows: seq<Function>, k: nat)
    requires Distinct(rows) && k < |rows|
    ensures FindById(rows, rows[k].id) == Some(rows[k]) && FindByName(rows, rows[k].name) == Some(rows[k])
    decreases k
  {
    if k > 0 {
      RowIsFound(rows[1..], k - 1);
      assert rows[0].id != rows[k].id;
    }
  }

  lemma {:induction false} FoundIsRow(rows: seq<Function>, x: string)
    ensures FindByName(rows, x).Some? ==> FindByName(rows, x).value in rows && FindByName(rows, x).value.name == x
    ensures FindById(rows, x).Some? ==> FindById(rows, x).value in rows && FindById(rows, x).value.id == x
  {
    if rows != [] {
      FoundIsRow(rows[1..], x);
    }
  }

  // ---------------------------------------------------------------- the rename cascade

  function RenameRow(rows: seq<Function>, id: string, name: string): seq<Function> {
    seq(|rows|, i requires 0 <= i < |rows| => if rows[i].id == id then rows[i].(name := name) else rows[i])
  }

  function RenameQueues(rows: seq<QueueRow>, from: string, to: string): seq<QueueRow> {
    seq(|rows|, i requires 0 <= i < |rows| =>
      if rows[i].targetFunction == Some(from) then rows[i].(targetFunction := Some(to)) else rows[i])
  }

  function RenameFlows(rows: seq<FlowRow>, from: string, to: string): seq<FlowRow> {
    seq(|rows|, i requires 0 <= i < |rows| => rows[i].(definition := Renamed(rows[i].definition, from, to)))
  }

  predicate IsNameChar(c: char) {
    'a' <= c <= 'z' || '0' <= c <= '9' || c == '_' || c == '-'
  }

  /** `name.trim().toLowerCase().replace(/[^a-z0-9_-]/g, '-')`, with the lower-casing given. */
  function CleanName(name: string, lower: string -> string): string {
    var s := lower(Trim(name));
    seq(|s|, i requires 0 <= i < |s| => if IsNameChar(s[i]) then s[i] else '-')
  }

  datatype Answer = Saved | NotFound | Conflict

  class Functions {
    var functions: seq<Function>
    var queues: seq<QueueRow>
    var flows: seq<FlowRow>

    constructor (functions: seq<Function>, queues: seq<QueueRow>, flows: seq<FlowRow>)
      ensures this.functions == functions && this.queues == queues && this.flows == flows
    {
      this.functions, this.queues, this.flows := functions, queues, flows;
    }

    /** The cascade over the rows of `_flows`: only definitions that mention the old name are written. */
    method RenameInFlows(from: string, to: string)
      modifies this`flows
      ensures flows == RenameFlows(old(flows), from, to)
    {
      ghost var was := flows;
      var k := 0;
      while k < |flows|
        invariant 0 <= k <= |flows| == |was|
        invariant forall i :: 0 <= i < |was| ==> flows[i] == if i < k then RenameFlows(was, from, to)[i] else was[i]
      {
        var definition := flows[k].definition;
        var states, renamed := RenameStates(definition.states, from, to);
        if renamed {
          flows := flows[k := flows[k].(definition := definition.(states := states))];
        } else {
          UnmentionedUnchanged(definition, from, to);
        }
        k := k + 1;
      }
    }

    /** updateFunction, of which only the name matters here. `name` is absent when the request has none. */
    method UpdateFunction(id: string, name: Option<string>, lower: string -> string) returns (r: Answer)
      requires Distinct(functions)
      modifies this
      ensures Distinct(functions)
      ensures r.NotFound? <==> FindById(old(functions), id).None?
      ensures !r.Saved? ==> functions == old(functions) && queues == old(queues) && flows == old(flows)
      ensures r.Saved? ==>
        var from := FindById(old(functions), id).value.name;
        var renames := name.Some? && name.value != "" && Trim(name.value) != from;
        var to := if renames then CleanName(name.value, lower) else from;
        && functions == RenameRow(old(functions), id, to)
        && queues == RenameQueues(old(queues), from, to) && flows == RenameFlows(old(flows), from, to)
    {
      var current := FindById(functions, id);
      if current.None? {
        return NotFound;
      }
      FoundIsRow(functions, id);
      var from := current.value.name;
      var to := from;
      if name.Some? && name.value != "" && Trim(name.value) != from {
        to := CleanName(name.value, lower);
        var conflict := FindByName(functions, to);
        if conflict.Some? && conflict.value.id != id {
          return Conflict;
        }
      } else {
        OwnNameAvailable(functions, id);
      }
      RenamedStayDistinct(functions, id, to);
      functions := RenameRow(functions, id, to);
      if to != from {
        queues := RenameQueues(queues, from, to);
        RenameInFlows(from, to);
      } else {
        RenameToSelf(queues, flows, from);
      }
      return Saved;
    }

    /** getDependentFlows, for trimmed names of which blanks match nothing. */
    method GetDependentFlows(name: string, id: string) returns (dependent: seq<FlowRow>)
      ensures forall row :: row in dependent <==> row in flows && Mentions(row.definition, name, id)
    {
      dependent := [];
      var k := 0;
      while k < |flows|
        invariant 0 <= k <= |flows|
        invariant forall row :: row in dependent <==> row in flows[..k] && Mentions(row.definition, name, id)
      {
        var referenced := ScanStates(flows[k].definition.states, {});
        if (Trim(name) != "" && Trim(name) in referenced) || (Trim(id) != "" && Trim(id) in referenced) {
          dependent := dependent + [flows[k]];
        }
        assert flows[..k + 1] == flows[..k] + [flows[k]];
        k := k + 1;
      }
      assert flows[..k] == flows;
    }

    method GetDependentQueues(name: string, id: string) returns (dependent: seq<QueueRow>)
      ensures forall row :: row in dependent <==> row in queues && Targets(row, name, id)
    {
      dependent := [];
      for k := 0 to |queues|
        invariant forall row :: row in dependent <==> row in queues[..k] && Targets(row, name, id)
      {
        if Targets(queues[k], name, id) {
          dependent := dependent + [queues[k]];
        }
        assert queues[..k + 1] == queues[..k] + [queues[k]];
      }
      assert queues[..|queues|] == queues;
    }

    method DeleteFunction(ref: string, force: bool) returns (r: Answer)
      requires Distinct(functions)
      modifies this`functions
      ensures var current := Found(old(functions), ref);
        && (r.NotFound? <==> current.None?)
        && (current.Some? ==> (r.Conflict? <==> !force && Referenced(flows, queues, current.value)))
        && functions == if r.Saved? then Without(old(functions), current.value.id) else old(functions)
    {
      var current := Found(functions, ref);
      if current.None? {
        return NotFound;
      }
      if !force {
        var dependent := GetDependentFlows(current.value.name, current.value.id);
        if |dependent| > 0 {
          assert dependent[0] in dependent;
          return Conflict;
        }
        var dependentQueues := GetDependentQueues(current.value.name, current.value.id);
        if |dependentQueues| > 0 {
          assert dependentQueues[0] in dependentQueues;
          return Conflict;
        }
        assert forall row :: row in flows ==> row !in dependent;
        assert forall row :: row in queues ==> row !in dependentQueues;
      }
      functions := Without(functions, current.value.id);
      return Saved;
    }
  }

  function Without(rows: seq<Function>, id: string): seq<Function> {
    if rows == [] then [] else (if rows[0].id == id then [] else [rows[0]]) + Without(rows[1..], id)
  }

  predicate Mentions(def: Definition, name: string, id: string) {
    var names := Names(Callees(def.states));
    (Trim(name) != "" && Trim(name) in names) || (Trim(id) != "" && Trim(id) in names)
  }

  predicate Targets(row: QueueRow, name: string, id: string) {
    row.targetFunction.Some? &&
    ((Trim(name) != "" && row.targetFunction.value == Trim(name))
      || (Trim(id) != "" && row.targetFunction.value == Trim(id)))
  }

  predicate Referenced(flows: seq<FlowRow>, queues: seq<QueueRow>, f: Function) {
    || (exists i :: 0 <= i < |flows| && Mentions(flows[i].definition, f.name, f.id))
    || (exists i :: 0 <= i < |queues| && Targets(queues[i], f.name, f.id))
  }

  lemma UnmentionedUnchanged(def: Definition, from: string, to: string)
    requires from !in Callees(def.states)
    ensures Renamed(def, from, to) == def
  {
    var e, cs := Edit(from, to, false), Callees(def.states);
    forall i | 0 <= i < |cs| ensures Apply(e, cs[i]) == cs[i] { assert cs[i] in cs; }
    assert ApplyAll(e, cs) == cs;
    FixedStates(def.states, e);
  }

  lemma RenameToSelf(queues: seq<QueueRow>, flows: seq<FlowRow>, name: string)
    ensures RenameQueues(queues, name, name) == queues && RenameFlows(flows, name, name) == flows
  {
    var e := Edit(name, name, false);
    forall i | 0 <= i < |flows| ensures Renamed(flows[i].definition, name, name) == flows[i].definition {
      var cs := Callees(flows[i].definition.states);
      assert ApplyAll(e, cs) == cs;
      FixedStates(flows[i].definition.states, e);
    }
  }

  /** The name is free, or is the function's own. */
  predicate Available(rows: seq<Function>, id: string, name: string) {
    var holder := FindByName(rows, name); holder.None? || holder.value.id == id
  }

  lemma RenamedStayDistinct(rows: seq<Function>, id: string, name: string)
    requires Distinct(rows) && Available(rows, id, name)
    ensures Distinct(RenameRow(rows, id, name))
  {
    forall k | 0 <= k < |rows| ensures rows[k].name == name ==> rows[k].id == id {
      RowIsFound(rows, k);
    }
  }

  lemma OwnNameAvailable(rows: seq<Function>, id: string)
    requires Distinct(rows) && FindById(rows, id).Some?
    ensures Available(rows, id, FindById(rows, id).value.name)
  {
    FoundIsRow(rows, id);
    var k :| 0 <= k < |rows| && rows[k] == FindById(rows, id).value;
    RowIsFound(rows, k);
  }

  // ---------------------------------------------------------------- a rename leaves no reference behind

  /** The rows after a function has been renamed: its own row changed, the others untouched. */
  lemma RenamedRow(rows: seq<Function>, id: string, name: string, f: Function)
    requires f in rows
    ensures (if f.id == id then f.(name := name) else f) in RenameRow(rows, id, name)
  {
    var k :| 0 <= k < |rows| && rows[k] == f;
    assert RenameRow(rows, id, name)[k] == if f.id == id then f.(name := name) else f;
  }

  lemma FoundByName(rows: seq<Function>, f: Function)
    requires Distinct(rows) && f in rows
    ensures FindByName(rows, f.name) == Some(f) && FindById(rows, f.id) == Some(f)
  {
    var k :| 0 <= k < |rows| && rows[k] == f;
    RowIsFound(rows, k);
  }

  lemma {:induction false} IdKept(rows: seq<Function>, id: string, name: string, ref: string)
    ensures FindById(RenameRow(rows, id, name), ref)
         == (var found := FindById(rows, ref);
           if found.Some? && ref == id then Some(found.value.(name := name)) else found)
    decreases |rows|
  {
    if rows != [] {
      assert RenameRow(rows, id, name)[1..] == RenameRow(rows[1..], id, name);
      IdKept(rows[1..], id, name, ref);
    }
  }

  /** A name that is neither the old nor the new one is answered as before. */
  lemma {:induction false} OtherNameKept(rows: seq<Function>, id: string, from: string, to: string, ref: string)
    requires ref != to && forall i :: 0 <= i < |rows| && rows[i].id == id ==> rows[i].name == from
    requires ref != from
    ensures FindByName(RenameRow(rows, id, to), ref) == FindByName(rows, ref)
    decreases |rows|
  {
    if rows != [] {
      assert RenameRow(rows, id, to)[1..] == RenameRow(rows[1..], id, to);
      OtherNameKept(rows[1..], id, from, to, ref);
    }
  }

  /** Another function has this id. */
  predicate OtherId(rows: seq<Function>, f: Function, id: string) {
    exists g :: g in rows && g != f && g.id == id
  }

  lemma OtherIdFound(rows: seq<Function>, f: Function, ref: string)
    requires Distinct(rows) && f in rows
    ensures OtherId(rows, f, ref) <==> FindById(rows, ref).Some? && FindById(rows, ref).value.id != f.id
  {
    FoundIsRow(rows, ref);
    if OtherId(rows, f, ref) {
      var g :| g in rows && g != f && g.id == ref;
      FoundByName(rows, g);
      FoundByName(rows, f);
    }
  }

  /**
   * When a reference runs another function after the cascade than before: it is the old name, which it is rewritten
   * from, and the old or the new name is also another function's id; or it dangled and is the new name.
   */
  predicate Retargeted(rows: seq<Function>, f: Function, to: string, ref: string) {
    to != f.name &&
    if ref == f.name then OtherId(rows, f, f.name) || OtherId(rows, f, to)
    else ref == to && Found(rows, to).None?
  }

  /** When another function's policy is checked: an id that the new name shadows, or again a reference that dangled. */
  predicate Rechecked(rows: seq<Function>, f: Function, to: string, ref: string) {
    to != f.name && ref == to && (OtherId(rows, f, to) || Found(rows, to).None?)
  }

  /** How the lookups by id and by name answer a rewritten reference in the renamed table. */
  lemma LookupsAfter(rows: seq<Function>, f: Function, to: string, ref: string)
    requires Distinct(rows) && f in rows && Available(rows, f.id, to)
    ensures var after := RenameRow(rows, f.id, to);
      && IdOf(FindById(after, ref)) == IdOf(FindById(rows, ref))
      && FindByName(after, to) == Some(Function(f.id, to))
      && (ref != to && ref != f.name ==> FindByName(after, ref) == FindByName(rows, ref))
  {
    IdKept(rows, f.id, to, ref);
    FoundIsRow(rows, ref);
    FoundByName(rows, f);
    RenamedStayDistinct(rows, f.id, to);
    RenamedRow(rows, f.id, to, f);
    FoundByName(RenameRow(rows, f.id, to), Function(f.id, to));
    forall i | 0 <= i < |rows| && rows[i].id == f.id ensures rows[i].name == f.name {
      RowIsFound(rows, i);
    }
    if ref != f.name && ref != to {
      OtherNameKept(rows, f.id, f.name, to, ref);
    }
  }

  /** A name other than its own that the function may take is nobody's name. */
  lemma FreeName(rows: seq<Function>, f: Function, to: string)
    requires Distinct(rows) && f in rows && Available(rows, f.id, to) && to != f.name
    ensures FindByName(rows, to).None?
  {
    FoundIsRow(rows, to);
    if FindByName(rows, to).Some? {
      FoundByName(rows, f);
      FoundByName(rows, FindByName(rows, to).value);
    }
  }

  /** A reference runs the same function after the cascade as before, except exactly when it is retargeted. */
  lemma RenameKeepsTargetIff(rows: seq<Function>, f: Function, to: string, ref: string)
    requires Distinct(rows) && f in rows && Available(rows, f.id, to)
    ensures var after, ref' := RenameRow(rows, f.id, to), Apply(Edit(f.name, to, false), ref);
      && (RunId(after, ref') == RunId(rows, ref) <==> !Retargeted(rows, f, to, ref))
      && (RunId(rows, ref).Some? ==> RunId(after, ref').Some?)
  {
    var ref' := Apply(Edit(f.name, to, false), ref);
    LookupsAfter(rows, f, to, ref');
    FoundIsRow(rows, ref);
    FoundIsRow(rows, ref');
    FoundByName(rows, f);
    OtherIdFound(rows, f, f.name);
    OtherIdFound(rows, f, to);
    if to != f.name {
      FreeName(rows, f, to);
    }
  }

  /** The same for the policy check. */
  lemma RenameKeepsCheckIff(rows: seq<Function>, f: Function, to: string, ref: string)
    requires Distinct(rows) && f in rows && Available(rows, f.id, to)
    ensures var after, ref' := RenameRow(rows, f.id, to), Apply(Edit(f.name, to, false), ref);
      CheckedId(after, ref') == CheckedId(rows, ref) <==> !Rechecked(rows, f, to, ref)
  {
    var ref' := Apply(Edit(f.name, to, false), ref);
    LookupsAfter(rows, f, to, ref');
    FoundIsRow(rows, ref);
    FoundByName(rows, f);
    OtherIdFound(rows, f, to);
    if to != f.name {
      FreeName(rows, f, to);
    }
  }

  lemma LookupsInTwo(f: Function, g: Function, x: string)
    ensures FindById([f, g], x) == if f.id == x then Some(f) else if g.id == x then Some(g) else None
    ensures FindByName([f, g], x) == if f.name == x then Some(f) else if g.name == x then Some(g) else None
  {
    assert [f, g][1..] == [g] && [g][1..] == [];
    assert FindById([g], x) == (if g.id == x then Some(g) else None);
    assert FindByName([g], x) == if g.name == x then Some(g) else None;
  }

  /**
   * Ids are given by users: here the new name is the other function's id, and the flow that called one runs the other.
   */
  lemma NewNameCanBeAnId()
    ensures var f, g := Function("a", "n"), Function("m", "g");
      var rows, after := [f, g], RenameRow([f, g], "a", "m");
      && Distinct(rows) && Available(rows, f.id, "m")
      && RunId(rows, "n") == Some("a") && RunId(after, Apply(Edit("n", "m", false), "n")) == Some("m")
      && RunId(rows, "m") == Some("m") && RunId(after, Apply(Edit("n", "m", false), "m")) == Some("m")
  {
    var f, g := Function("a", "n"), Function("m", "g");
    LookupsInTwo(f, g, "n");
    LookupsInTwo(f, g, "m");
    assert RenameRow([f, g], "a", "m") == [f.(name := "m"), g];
    LookupsInTwo(f.(name := "m"), g, "m");
  }

  /** And here the old name is: the call meant the other function by its id, and is rewritten all the same. */
  lemma OldNameCanBeAnId()
    ensures var f, g := Function("a", "n"), Function("n", "g");
      var rows, after := [f, g], RenameRow([f, g], "a", "m");
      && Distinct(rows) && Available(rows, f.id, "m")
      && RunId(rows, "n") == Some("n") && RunId(after, Apply(Edit("n", "m", false), "n")) == Some("a")
  {
    var f, g := Function("a", "n"), Function("n", "g");
    LookupsInTwo(f, g, "n");
    LookupsInTwo(f, g, "m");
    assert RenameRow([f, g], "a", "m") == [f.(name := "m"), g];
    LookupsInTwo(f.(name := "m"), g, "m");
  }

  // ---------------------------------------------------------------- all flows and queues together

  /** Every call of the flow runs the same function before and after. */
  predicate FlowKept(rows: seq<Function>, f: Function, to: string, row: FlowRow) {
    var e, cs := Edit(f.name, to, false), Callees(row.definition.states);
    forall k :: 0 <= k < |cs| ==> RunId(RenameRow(rows, f.id, to), ApplyAll(e, cs)[k]) == RunId(rows, cs[k])
  }

  predicate QueueKept(rows: seq<Function>, f: Function, to: string, row: QueueRow) {
    row.targetFunction.Some? ==>
      RunId(RenameRow(rows, f.id, to), Apply(Edit(f.name, to, false), row.targetFunction.value))
      == RunId(rows, row.targetFunction.value)
  }

  predicate InUse(flows: seq<FlowRow>, queues: seq<QueueRow>, name: string) {
    || (exists i :: 0 <= i < |flows| && name in Callees(flows[i].definition.states))
    || (exists i :: 0 <= i < |queues| && queues[i].targetFunction == Some(name))
  }

  /**
   * A rename over flows and queues that all resolve: each call and each binding goes on running the function it ran,
   * if and only if the old name is in use nowhere, or neither name is another function's id.
   */
  lemma CascadeKeepsTargetsIff(rows: seq<Function>, flows: seq<FlowRow>, queues: seq<QueueRow>, f: Function, to: string)
    requires Distinct(rows) && f in rows && Available(rows, f.id, to) && to != f.name
    requires forall i :: 0 <= i < |flows| ==> FlowResolves(rows, flows[i])
    requires forall i :: 0 <= i < |queues| ==> QueueResolves(rows, queues[i])
    ensures (forall i :: 0 <= i < |flows| ==> FlowKept(rows, f, to, flows[i]))
         && (forall i :: 0 <= i < |queues| ==> QueueKept(rows, f, to, queues[i]))
        <==> !InUse(flows, queues, f.name) || (!OtherId(rows, f, f.name) && !OtherId(rows, f, to))
  {
    var clash := OtherId(rows, f, f.name) || OtherId(rows, f, to);
    forall i | 0 <= i < |flows|
      ensures FlowKept(rows, f, to, flows[i]) <==> !clash || f.name !in Callees(flows[i].definition.states)
    {
      assert FlowResolves(rows, flows[i]);
      FlowKeptIff(rows, f, to, flows[i]);
    }
    forall i | 0 <= i < |queues|
      ensures QueueKept(rows, f, to, queues[i]) <==> !clash || queues[i].targetFunction != Some(f.name)
    {
      assert QueueResolves(rows, queues[i]);
      if queues[i].targetFunction.Some? {
        RenameKeepsTargetIff(rows, f, to, queues[i].targetFunction.value);
      }
    }
  }

  lemma FlowKeptIff(rows: seq<Function>, f: Function, to: string, row: FlowRow)
    requires Distinct(rows) && f in rows && Available(rows, f.id, to) && to != f.name && FlowResolves(rows, row)
    ensures FlowKept(rows, f, to, row)
       <==> !(OtherId(rows, f, f.name) || OtherId(rows, f, to)) || f.name !in Callees(row.definition.states)
  {
    var e, cs := Edit(f.name, to, false), Callees(row.definition.states);
    forall k | 0 <= k < |cs|
      ensures RunId(RenameRow(rows, f.id, to), ApplyAll(e, cs)[k]) == RunId(rows, cs[k])
          <==> !Retargeted(rows, f, to, cs[k])
    {
      RenameKeepsTargetIff(rows, f, to, cs[k]);
    }
  }

  /** In any case no flow and no queue is left with a reference that no longer resolves. */
  lemma RenameLeavesNothingDangling(rows: seq<Function>, flows: seq<FlowRow>, queues: seq<QueueRow>, f: Function,
      to: string)
    requires Distinct(rows) && f in rows && Available(rows, f.id, to)
    requires forall i :: 0 <= i < |flows| ==> FlowResolves(rows, flows[i])
    requires forall i :: 0 <= i < |queues| ==> QueueResolves(rows, queues[i])
    ensures var after := RenameRow(rows, f.id, to);
      && (forall i :: 0 <= i < |flows| ==> FlowResolves(after, RenameFlows(flows, f.name, to)[i]))
      && (forall i :: 0 <= i < |queues| ==> QueueResolves(after, RenameQueues(queues, f.name, to)[i]))
  {
    var after, e := RenameRow(rows, f.id, to), Edit(f.name, to, false);
    forall i | 0 <= i < |flows| ensures FlowResolves(after, RenameFlows(flows, f.name, to)[i]) {
      var cs := Callees(flows[i].definition.states);
      assert FlowResolves(rows, flows[i]);
      EditedCallees(flows[i].definition.states, e);
      forall k | 0 <= k < |cs| ensures Found(after, ApplyAll(e, cs)[k]).Some? {
        RenameKeepsTargetIff(rows, f, to, cs[k]);
      }
    }
    forall i | 0 <= i < |queues| ensures QueueResolves(after, RenameQueues(queues, f.name, to)[i]) {
      assert QueueResolves(rows, queues[i]);
      if queues[i].targetFunction.Some? {
        RenameKeepsTargetIff(rows, f, to, queues[i].targetFunction.value);
      }
    }
  }

  predicate FlowResolves(rows: seq<Function>, row: FlowRow) {
    var cs := Callees(row.definition.states);
    forall k :: 0 <= k < |cs| ==> Found(rows, cs[k]).Some?
  }

  predicate QueueResolves(rows: seq<Function>, row: QueueRow) {
    row.targetFunction.Some? ==> Found(rows, row.targetFunction.value).Some?
  }

  // ---------------------------------------------------------------- an unforced deletion strands nobody

  /** Another function answers to the reference. */
  predicate AnsweredElsewhere(rows: seq<Function>, f: Function, ref: string) {
    exists g :: g in rows && g != f && (g.name == ref || g.id == ref)
  }

  lemma {:induction false} WithoutIff(rows: seq<Function>, id: string, g: Function)
    ensures g in Without(rows, id) <==> g in rows && g.id != id
    decreases |rows|
  {
    if rows != [] {
      WithoutIff(rows[1..], id, g);
      assert g in rows <==> g == rows[0] || g in rows[1..];
    }
  }

  lemma {:induction false} FoundIff(rows: seq<Function>, ref: string)
    ensures Found(rows, ref).Some? <==> exists g :: g in rows && (g.name == ref || g.id == ref)
  {
    FoundIsRow(rows, ref);
    forall k | 0 <= k < |rows| ensures rows[k].name == ref || rows[k].id == ref ==> Found(rows, ref).Some? {
      FoundOrElse(rows, k);
    }
  }

  lemma {:induction false} FoundOrElse(rows: seq<Function>, k: nat)
    requires k < |rows|
    ensures FindByName(rows, rows[k].name).Some? && FindById(rows, rows[k].id).Some?
    decreases k
  {
    if k > 0 {
      FoundOrElse(rows[1..], k - 1);
    }
  }

  /**
   * A deletion takes a reference's answer away exactly when the reference is the function's name or id and nobody else
   * answers.
   */
  lemma DeletionStrandsIff(rows: seq<Function>, f: Function, ref: string)
    requires Distinct(rows) && f in rows && Found(rows, ref).Some?
    ensures Found(Without(rows, f.id), ref).None?
        <==> (ref == f.name || ref == f.id) && !AnsweredElsewhere(rows, f, ref)
  {
    FoundIff(rows, ref);
    FoundIff(Without(rows, f.id), ref);
    FoundByName(rows, f);
    forall g | g in rows ensures g in Without(rows, f.id) <==> g != f {
      WithoutIff(rows, f.id, g);
      FoundByName(rows, g);
    }
    forall g | g in Without(rows, f.id) ensures g in rows {
      WithoutIff(rows, f.id, g);
    }
  }

  /** A name that the dependency checks can see: not blank, and for queues without white space around it. */
  predicate Visible(name: string) {
    Trim(name) != "" && Trim(name) == name
  }

  /** Something resolved before the deletion and does not resolve after it. */
  predicate Strands(rows: seq<Function>, flows: seq<FlowRow>, queues: seq<QueueRow>, f: Function) {
    || (exists i :: 0 <= i < |flows| && FlowResolves(rows, flows[i]) && !FlowResolves(Without(rows, f.id), flows[i]))
    || (exists i ::
          0 <= i < |queues| && QueueResolves(rows, queues[i]) && !QueueResolves(Without(rows, f.id), queues[i]))
  }

  /** The name is seen by the checks, or another function answers to it. */
  predicate Covered(rows: seq<Function>, f: Function, name: string) {
    Visible(name) || AnsweredElsewhere(rows, f, name)
  }

  /** An unforced deletion that goes through strands nobody, if the function's name and id are covered. */
  lemma UnforcedDeletionStrandsNobody(rows: seq<Function>, flows: seq<FlowRow>, queues: seq<QueueRow>, f: Function)
    requires Distinct(rows) && f in rows && Covered(rows, f, f.name) && Covered(rows, f, f.id)
    requires !Referenced(flows, queues, f)
    ensures !Strands(rows, flows, queues, f)
  {
    forall i | 0 <= i < |flows| && FlowResolves(rows, flows[i]) ensures FlowResolves(Without(rows, f.id), flows[i]) {
      var cs := Callees(flows[i].definition.states);
      forall k | 0 <= k < |cs| ensures Found(Without(rows, f.id), cs[k]).Some? {
        assert !Mentions(flows[i].definition, f.name, f.id);
        assert Trim(cs[k]) != "" ==> Trim(cs[k]) in Names(cs);
        DeletionStrandsIff(rows, f, cs[k]);
      }
    }
    forall i | 0 <= i < |queues| && QueueResolves(rows, queues[i])
      ensures QueueResolves(Without(rows, f.id), queues[i])
    {
      assert !Targets(queues[i], f.name, f.id);
      if queues[i].targetFunction.Some? {
        DeletionStrandsIff(rows, f, queues[i].targetFunction.value);
      }
    }
  }

  /** If either is not, a queue bound to it is not seen by the checks and is left dangling. */
  lemma UncoveredNameStrands(rows: seq<Function>, f: Function, name: string)
    requires Distinct(rows) && f in rows && (name == f.name || name == f.id) && !Covered(rows, f, name)
    ensures var q := QueueRow("q", Some(name)); !Referenced([], [q], f) && Strands(rows, [], [q], f)
  {
    var q := QueueRow("q", Some(name));
    FoundByName(rows, f);
    DeletionStrandsIff(rows, f, name);
    TrimTwice(f.name);
    TrimTwice(f.id);
    assert [q][0] == q;
    assert !Targets(q, f.name, f.id);
    assert QueueResolves(rows, [q][0]) && !QueueResolves(Without(rows, f.id), [q][0]);
  }

  lemma TrimTwice(s: string)
    ensures Trim(Trim(s)) == Trim(s)
  {
    TrimIsTrimmed(s);
    if Trim(s) != "" {
      TrimPadded(Trim(s));
    }
  }

  /** Some flows and queues let an unforced deletion of the function through and lose their answer by it. */
  ghost predicate CanStrand(rows: seq<Function>, f: Function) {
    exists flows, queues :: !Referenced(flows, queues, f) && Strands(rows, flows, queues, f)
  }

  lemma DeletionIsSafeIff(rows: seq<Function>, f: Function)
    requires Distinct(rows) && f in rows
    ensures !CanStrand(rows, f) <==> Covered(rows, f, f.name) && Covered(rows, f, f.id)
  {
    if !Covered(rows, f, f.name) {
      UncoveredNameStrands(rows, f, f.name);
    } else if !Covered(rows, f, f.id) {
      UncoveredNameStrands(rows, f, f.id);
    } else {
      forall flows, queues | !Referenced(flows, queues, f) ensures !Strands(rows, flows, queues, f) {
        UnforcedDeletionStrandsNobody(rows, flows, queues, f);
      }
    }
  }
}
