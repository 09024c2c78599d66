// What the MCP pass-through changes in a tool call (agent-api/mcppins.go): the
// caller's pinned model, effort and mode, and the cap on waits.
module McpPins {
  import opened Ids
  import opened Options

  /** A number as written, and the float it reads as, if one does. */
  datatype Number = Number(text: Text, float: Option<real>)

  type Fields = map<Text, Json>

  datatype Json =
    | Null
    | Bool(on: bool)
    | Num(number: Number)
    | Str(text: Text)
    | Arr(items: seq<Json>)
    | Obj(fields: Fields)

  datatype Pin = Pin(model: Text, effort: Text, permission: Text)

  // Names and values of the protocol, as numbered texts.
  const INHERIT: Text := 1
  const CLAUDE: Text := 2
  const METHOD: Text := 10
  const PARAMS: Text := 11
  const NAME: Text := 12
  const ARGUMENTS: Text := 13
  const TOOLS_CALL: Text := 14
  const MODEL_SELECTION: Text := 20
  const TARGET: Text := 21
  const RUNTIME_MODE: Text := 22
  const INTERACTION_MODE: Text := 23
  const THREADS: Text := 24
  const TIMEOUT_MS: Text := 25
  const INSTANCE_ID: Text := 30
  const PROVIDER: Text := 31
  const PROVIDER_INSTANCE_ID: Text := 32
  const DRIVER_KIND: Text := 33
  const MODEL: Text := 34
  const OPTIONS: Text := 35
  const EFFORT: Text := 36
  const ID: Text := 37
  const VALUE: Text := 38
  const LAUNCH: Text := 40
  const CONFIGURE: Text := 41
  const DELEGATE_TASK: Text := 42
  const CREATE_THREADS: Text := 43
  const THREAD_WAIT: Text := 44
  const BACKGROUND_WAIT: Text := 45
  const BYPASS_PERMISSIONS: Text := 50
  const ACCEPT_EDITS: Text := 51
  const DEFAULT: Text := 52
  const PLAN: Text := 53
  const FULL_ACCESS: Text := 54
  const AUTO_ACCEPT_EDITS: Text := 55
  const APPROVAL_REQUIRED: Text := 56

  /** An absent key reads as null. */
  function Get(f: Fields, k: Text): Json {
    if k in f then f[k] else Null
  }

  function FieldsOf(j: Json): Fields {
    if j.Obj? then j.fields else map[]
  }

  function TextOf(j: Json): Text {
    if j.Str? then j.text else EMPTY
  }

  /** The value a pin field forces, EMPTY when it forces nothing. */
  function Pinned(v: Text): Text {
    if v == INHERIT then EMPTY else v
  }

  // ---------- the effort option ----------

  function EffortOption(effort: Text): Json {
    Obj(map[ID := Str(EFFORT), VALUE := Str(effort)])
  }

  predicate IsEffort(j: Json) {
    j.Obj? && Get(j.fields, ID) == Str(EFFORT)
  }

  /** The effort in place of the first effort entry, or at the end; the others dropped. */
  function Merged(o: seq<Json>, placed: bool, effort: Text): seq<Json> {
    if o == [] then (if placed then [] else [EffortOption(effort)])
    else if IsEffort(o[0]) then
      (if placed then [] else [EffortOption(effort)]) + Merged(o[1..], true, effort)
    else [o[0]] + Merged(o[1..], placed, effort)
  }

  function WithEffort(opts: Json, effort: Text): Json {
    match opts
    case Obj(f) => Obj(f[EFFORT := Str(effort)])
    case Arr(o) => Arr(Merged(o, false, effort))
    case _ => Arr([EffortOption(effort)])
  }

  /** What one entry adds to a merge under way. */
  lemma MergedFrom(o: seq<Json>, i: nat, placed: bool, effort: Text, out: seq<Json>)
    requires i < |o|
    ensures var rest := o[i + 1..];
      out + Merged(o[i..], placed, effort) ==
        if !IsEffort(o[i]) then out + [o[i]] + Merged(rest, placed, effort)
        else if placed then out + Merged(rest, true, effort)
        else out + [EffortOption(effort)] + Merged(rest, true, effort)
  {
    assert o[i..][1..] == o[i + 1..] && o[i..][0] == o[i];
  }

  method SetEffort(opts: Json, effort: Text) returns (r: Json)
    ensures r == WithEffort(opts, effort)
  {
    hide EffortOption;
    match opts
    case Obj(f) => return Obj(f[EFFORT := Str(effort)]);
    case Arr(o) =>
      var out: seq<Json>, placed := [], false;
      for i := 0 to |o|
        invariant Merged(o, false, effort) == out + Merged(o[i..], placed, effort)
      {
        MergedFrom(o, i, placed, effort, out);
        if o[i].Obj? && Get(o[i].fields, ID) == Str(EFFORT) {
          if !placed {
            out := out + [EffortOption(effort)];
            placed := true;
          }
          continue;
        }
        out := out + [o[i]];
      }
      assert o[|o|..] == [];
      if !placed { out := out + [EffortOption(effort)]; }
      return Arr(out);
    case _ => return Arr([EffortOption(effort)]);
  }

  /** The entries that are not an effort, in order. */
  function Others(o: seq<Json>): seq<Json> {
    if o == [] then [] else (if IsEffort(o[0]) then [] else [o[0]]) + Others(o[1..])
  }

  function Efforts(o: seq<Json>): seq<Json> {
    if o == [] then [] else (if IsEffort(o[0]) then [o[0]] else []) + Efforts(o[1..])
  }

  /** One effort entry and no other: the pin's. */
  predicate CarriesEffort(opts: Json, effort: Text) {
    match opts
    case Obj(f) => Get(f, EFFORT) == Str(effort)
    case Arr(o) => Efforts(o) == [EffortOption(effort)]
    case _ => false
  }

  lemma {:induction false} MergedKeeps(o: seq<Json>, placed: bool, effort: Text)
    ensures Others(Merged(o, placed, effort)) == Others(o)
    ensures Efforts(Merged(o, placed, effort)) == if placed then [] else [EffortOption(effort)]
  {
    var e := [EffortOption(effort)];
    if o == [] {
      assert e[1..] == [];
    } else {
      var m := Merged(o, placed, effort);
      if IsEffort(o[0]) {
        MergedKeeps(o[1..], true, effort);
        if placed {
          assert m == Merged(o[1..], true, effort);
        } else {
          assert m == e + Merged(o[1..], true, effort) && m[0] == e[0] && m[1..] == Merged(o[1..], true, effort);
        }
      } else {
        MergedKeeps(o[1..], placed, effort);
        assert m[1..] == Merged(o[1..], placed, effort);
      }
    }
  }

  /** Nothing to merge leaves the entries as they are. */
  lemma {:induction false} MergedNothing(o: seq<Json>, placed: bool, effort: Text)
    requires Efforts(o) == if placed then [] else [EffortOption(effort)]
    ensures Merged(o, placed, effort) == o
  {
    if o != [] {
      if IsEffort(o[0]) {
        assert (([o[0]] + Efforts(o[1..]))[1..]) == Efforts(o[1..]);
        MergedNothing(o[1..], true, effort);
        assert Efforts(o)[0] == o[0];
      } else {
        MergedNothing(o[1..], placed, effort);
      }
      assert o == [o[0]] + o[1..];
    }
  }

  /** The first effort entry is at n, or there is none and n is the end. */
  predicate FirstEffort(o: seq<Json>, n: nat) {
    && n <= |o| && (n < |o| ==> IsEffort(o[n]))
    && forall j :: 0 <= j < n ==> !IsEffort(o[j])
  }

  /** The pinned effort stands where the first one stood, or last; every option
      before it stays and of those after it only other efforts go. */
  lemma {:induction false} MergedPlace(o: seq<Json>, effort: Text, n: nat)
    requires FirstEffort(o, n)
    ensures Merged(o, false, effort) == o[..n] + [EffortOption(effort)] + Others(o[n..])
  {
    if n > 0 {
      MergedPlace(o[1..], effort, n - 1);
      assert o[..n] == [o[0]] + o[1..][..n - 1] && o[n..] == o[1..][n - 1..];
    } else {
      if o != [] { MergedRest(o[1..], effort); }
      assert o[..0] == [] && o[0..] == o;
    }
  }

  lemma {:induction false} MergedRest(o: seq<Json>, effort: Text)
    ensures Merged(o, true, effort) == Others(o)
  {
    if o != [] { MergedRest(o[1..], effort); }
  }

  /** Setting the effort leaves exactly the pinned one, keeps every other option
      in order, and a second time changes nothing. */
  lemma EffortSet(opts: Json, effort: Text)
    ensures CarriesEffort(WithEffort(opts, effort), effort)
    ensures opts.Arr? ==> Others(WithEffort(opts, effort).items) == Others(opts.items)
    ensures opts.Obj? ==> forall k :: k != EFFORT ==> Get(WithEffort(opts, effort).fields, k) == Get(opts.fields, k)
    ensures forall other :: CarriesEffort(other, effort) ==> WithEffort(other, effort) == other
  {
    match opts {
      case Arr(o) => MergedKeeps(o, false, effort);
      case Obj(_) =>
      case _ =>
        var e := [EffortOption(effort)];
        assert e[1..] == [] && Efforts(e[1..]) == [];
    }
    forall other | CarriesEffort(other, effort) ensures WithEffort(other, effort) == other {
      match other {
        case Arr(o) => MergedNothing(o, false, effort);
        case Obj(f) => assert f[EFFORT := Str(effort)] == f;
      }
    }
  }

  // ---------- the selection and the target ----------

  function ClaudeSelection(sel: Fields, model: Text): Fields {
    var named := TextOf(Get(sel, INSTANCE_ID));
    var inst := if named != EMPTY then named else TextOf(Get(sel, PROVIDER));
    var kept := if inst != CLAUDE then sel - {OPTIONS} else sel;
    (kept - {PROVIDER})[INSTANCE_ID := Str(CLAUDE)][MODEL := Str(model)]
  }

  function PinSelection(cur: Json, pin: Pin): Option<Fields> {
    var model, effort := Pinned(pin.model), Pinned(pin.effort);
    if model == EMPTY && effort == EMPTY then None else
    var sel := if model != EMPTY then ClaudeSelection(FieldsOf(cur), model) else FieldsOf(cur);
    if effort == EMPTY then Some(sel)
    else if TextOf(Get(sel, MODEL)) == EMPTY then None
    else Some(sel[OPTIONS := WithEffort(Get(sel, OPTIONS), effort)])
  }

  function ClaudeTarget(tgt: Fields, model: Text): Fields {
    var inst := if TextOf(Get(tgt, PROVIDER_INSTANCE_ID)) != EMPTY then TextOf(Get(tgt, PROVIDER_INSTANCE_ID))
                else TextOf(Get(tgt, DRIVER_KIND));
    var kept := if inst != EMPTY && inst != CLAUDE then tgt - {OPTIONS} else tgt;
    (kept - {DRIVER_KIND})[PROVIDER_INSTANCE_ID := Str(CLAUDE)][MODEL := Str(model)]
  }

  function PinTarget(cur: Json, pin: Pin): Option<Fields> {
    var model, effort := Pinned(pin.model), Pinned(pin.effort);
    if model == EMPTY && effort == EMPTY then None else
    var tgt := if model != EMPTY then ClaudeTarget(FieldsOf(cur), model) else FieldsOf(cur);
    if effort == EMPTY then Some(tgt) else Some(tgt[OPTIONS := WithEffort(Get(tgt, OPTIONS), effort)])
  }

  /** What pinning makes of one model-bearing field. */
  datatype Slot = Selection | Target

  function KeyOf(s: Slot): Text {
    if s == Selection then MODEL_SELECTION else TARGET
  }

  function PinSlot(s: Slot, cur: Json, pin: Pin): Option<Fields> {
    if s == Selection then PinSelection(cur, pin) else PinTarget(cur, pin)
  }

  /** The field names its provider this way. */
  function InstanceKey(s: Slot): Text {
    if s == Selection then INSTANCE_ID else PROVIDER_INSTANCE_ID
  }

  function LegacyKey(s: Slot): Text {
    if s == Selection then PROVIDER else DRIVER_KIND
  }

  /** The pin holds of a slot: its model on Claude, and exactly its effort. */
  predicate SlotHolds(s: Slot, f: Fields, pin: Pin) {
    && (Pinned(pin.model) != EMPTY ==>
          && Get(f, MODEL) == Str(Pinned(pin.model)) && Get(f, InstanceKey(s)) == Str(CLAUDE) && LegacyKey(s) !in f)
    && (Pinned(pin.effort) != EMPTY ==> CarriesEffort(Get(f, OPTIONS), Pinned(pin.effort)))
  }

  /** What a pin asks of a slot holds of what it builds, everything else in it
      stays, and where it holds already nothing changes. An effort with no model
      to attach to is the one pin a selection does not take. */
  lemma SlotPinned(s: Slot, cur: Json, pin: Pin)
    ensures PinSlot(s, cur, pin).None? <==>
      && Pinned(pin.model) == EMPTY
      && (Pinned(pin.effort) == EMPTY || (s == Selection && TextOf(Get(FieldsOf(cur), MODEL)) == EMPTY))
    ensures PinSlot(s, cur, pin).Some? ==>
      var f := PinSlot(s, cur, pin).value;
      && SlotHolds(s, f, pin)
      && (forall k :: k !in {InstanceKey(s), LegacyKey(s), MODEL, OPTIONS} ==>
            (k in f <==> k in FieldsOf(cur)) && Get(f, k) == Get(FieldsOf(cur), k))
      && PinSlot(s, Obj(f), pin) == Some(f)
  {
    hide WithEffort, CarriesEffort;
    var model, effort := Pinned(pin.model), Pinned(pin.effort);
    if PinSlot(s, cur, pin).Some? {
      var f := PinSlot(s, cur, pin).value;
      if effort != EMPTY {
        var base := if model == EMPTY then FieldsOf(cur)
                    else if s == Selection then ClaudeSelection(FieldsOf(cur), model)
                    else ClaudeTarget(FieldsOf(cur), model);
        EffortSet(Get(base, OPTIONS), effort);
      }
      assert SlotHolds(s, f, pin);
      SlotStays(s, f, pin);
    }
  }

  /** The field belongs to another provider, whose options mean nothing to Claude. */
  predicate Foreign(s: Slot, f: Fields) {
    var named := TextOf(Get(f, InstanceKey(s)));
    var inst := if named != EMPTY then named else TextOf(Get(f, LegacyKey(s)));
    inst != CLAUDE && (s == Selection || inst != EMPTY)
  }

  /** The options stay as they were, but for the effort a pin sets in them and
      for another provider's, which a pinned model drops. */
  lemma OptionsKept(s: Slot, cur: Json, pin: Pin)
    requires PinSlot(s, cur, pin).Some?
    ensures
      var was := if Pinned(pin.model) != EMPTY && Foreign(s, FieldsOf(cur)) then Null else Get(FieldsOf(cur), OPTIONS);
      var now := Get(PinSlot(s, cur, pin).value, OPTIONS);
      && (Pinned(pin.effort) == EMPTY ==> now == was)
      && (was.Arr? ==> now.Arr? && (Pinned(pin.effort) != EMPTY ==> Others(now.items) == Others(was.items)))
      && (was.Obj? ==> now.Obj? && forall k :: k != EFFORT ==> Get(now.fields, k) == Get(was.fields, k))
  {
    var was := if Pinned(pin.model) != EMPTY && Foreign(s, FieldsOf(cur)) then Null else Get(FieldsOf(cur), OPTIONS);
    EffortSet(was, Pinned(pin.effort));
  }

  lemma SlotStays(s: Slot, f: Fields, pin: Pin)
    requires SlotHolds(s, f, pin)
    requires PinSlot(s, Obj(f), pin).Some?
    ensures PinSlot(s, Obj(f), pin) == Some(f)
  {
    var model, effort := Pinned(pin.model), Pinned(pin.effort);
    if model != EMPTY {
      assert (f - {LegacyKey(s)})[InstanceKey(s) := Str(CLAUDE)][MODEL := Str(model)] == f;
      assert (if s == Selection then ClaudeSelection(f, model) else ClaudeTarget(f, model)) == f;
    }
    if effort != EMPTY {
      EffortSet(Get(f, OPTIONS), effort);
      assert OPTIONS in f;
      assert f[OPTIONS := Get(f, OPTIONS)] == f;
    }
  }

  // ---------- a call's arguments ----------

  /** claude's permission mode as a runtime mode and an interaction mode. */
  function Modes(permission: Text): Option<(Text, Text)> {
    if permission == BYPASS_PERMISSIONS then Some((FULL_ACCESS, DEFAULT))
    else if permission == ACCEPT_EDITS then Some((AUTO_ACCEPT_EDITS, DEFAULT))
    else if permission == DEFAULT then Some((APPROVAL_REQUIRED, DEFAULT))
    else if permission == PLAN then Some((APPROVAL_REQUIRED, PLAN))
    else None
  }

  function WithModes(f: Fields, pin: Pin): Fields {
    match Modes(Pinned(pin.permission))
    case None => f
    case Some(m) => f[RUNTIME_MODE := Str(m.0)][INTERACTION_MODE := Str(m.1)]
  }

  function WithSlot(s: Slot, f: Fields, pin: Pin): Fields {
    match PinSlot(s, Get(f, KeyOf(s)), pin)
    case None => f
    case Some(v) => f[KeyOf(s) := Obj(v)]
  }

  /** t3_thread_launch's arguments (a selection), or delegate_task's (a target). */
  function PinnedArgs(s: Slot, f: Fields, pin: Pin): Fields {
    WithModes(WithSlot(s, f, pin), pin)
  }

  function PinnedThread(j: Json, pin: Pin): Json {
    if j.Obj? then Obj(PinnedArgs(Target, j.fields, pin)) else j
  }

  function PinnedThreads(ts: seq<Json>, pin: Pin): (r: seq<Json>)
    ensures |r| == |ts| && forall i :: 0 <= i < |ts| ==> r[i] == PinnedThread(ts[i], pin)
  {
    if ts == [] then [] else PinnedThreads(ts[..|ts| - 1], pin) + [PinnedThread(ts[|ts| - 1], pin)]
  }

  function CreatedThreads(f: Fields, pin: Pin): Fields {
    if Get(f, THREADS).Arr? then f[THREADS := Arr(PinnedThreads(f[THREADS].items, pin))] else f
  }

  /** t3_thread_configure only has a selection to rewrite when it is sent one. */
  function Configured(f: Fields, pin: Pin): Fields {
    if Get(f, MODEL_SELECTION) == Null then f else WithSlot(Selection, f, pin)
  }

  predicate IsWait(tool: Text) {
    tool == THREAD_WAIT || tool == BACKGROUND_WAIT
  }

  predicate TooLong(j: Json, cap: real) {
    j.Num? && j.number.float.Some? && j.number.float.value > cap
  }

  function Capped(tool: Text, f: Fields, limit: Number, cap: real): Fields {
    if (if TIMEOUT_MS in f then TooLong(f[TIMEOUT_MS], cap) else IsWait(tool)) then f[TIMEOUT_MS := Num(limit)] else f
  }

  /** A name in the list of what changed: a field, or a field of a thread. */
  datatype Change = Field(name: Text) | ThreadField(i: nat, name: Text)

  /** Which of these fields differ, in this order. */
  function Differing(a: Fields, b: Fields, ks: seq<Text>): seq<Text> {
    if ks == [] then []
    else Differing(a, b, ks[..|ks| - 1]) + if Get(a, ks[|ks| - 1]) != Get(b, ks[|ks| - 1]) then [ks[|ks| - 1]] else []
  }

  function SlotKeys(s: Slot): seq<Text> {
    [KeyOf(s), RUNTIME_MODE, INTERACTION_MODE]
  }

  function ThreadChanges(i: nat, names: seq<Text>): seq<Change> {
    seq(|names|, k requires 0 <= k < |names| => ThreadField(i, names[k]))
  }

  function FieldChanges(names: seq<Text>): seq<Change> {
    seq(|names|, k requires 0 <= k < |names| => Field(names[k]))
  }

  function ChangedInThreads(ts: seq<Json>, pin: Pin): seq<Change> {
    if ts == [] then [] else
    var n := |ts| - 1;
    ChangedInThreads(ts[..n], pin) +
    if !ts[n].Obj? then []
    else ThreadChanges(n, Differing(ts[n].fields, PinnedThread(ts[n], pin).fields, SlotKeys(Target)))
  }

  /** The decoded arguments, changed in place. */
  class Args {
    var fields: Fields

    constructor (f: Fields)
      ensures fields == f
    {
      fields := f;
    }

    /** pinModes. */
    method PinModes(pin: Pin) returns (changed: seq<Text>)
      modifies this
      ensures fields == WithModes(old(fields), pin)
      ensures changed == Differing(old(fields), fields, [RUNTIME_MODE, INTERACTION_MODE])
      ensures ModesRight(old(fields), fields, pin.permission)
      ensures forall k: Text :: k != RUNTIME_MODE && k != INTERACTION_MODE ==> SameAt(old(fields), fields, k)
    {
      ModesMade(fields, pin);
      var m := Modes(Pinned(pin.permission));
      changed := [];
      DifferingTwo(fields, WithModes(fields, pin), RUNTIME_MODE, INTERACTION_MODE);
      if m.None? { return; }
      ghost var was := fields;
      if Get(fields, RUNTIME_MODE) != Str(m.value.0) {
        fields := fields[RUNTIME_MODE := Str(m.value.0)];
        changed := changed + [RUNTIME_MODE];
      }
      assert fields == was[RUNTIME_MODE := Str(m.value.0)];
      if Get(fields, INTERACTION_MODE) != Str(m.value.1) {
        fields := fields[INTERACTION_MODE := Str(m.value.1)];
        changed := changed + [INTERACTION_MODE];
      }
      assert fields == WithModes(was, pin);
    }

    /** pinLaunchArgs on a selection, pinTaskArgs on a target. */
    method PinArgs(s: Slot, pin: Pin) returns (changed: seq<Text>)
      modifies this
      ensures fields == PinnedArgs(s, old(fields), pin)
      ensures changed == Differing(old(fields), fields, SlotKeys(s))
      ensures s == Selection ==> LaunchRight(old(fields), fields, pin)
      ensures s == Target ==> TaskRight(old(fields), fields, pin)
    {
      ArgsMade(s, fields, pin);
      hide LaunchRight, TaskRight, ModesRight;
      hide PinSlot, Modes, Differing;
      changed := [];
      ghost var was := fields;
      var v := Built(s, Get(fields, KeyOf(s)), pin);
      if v.Some? && Get(fields, KeyOf(s)) != Obj(v.value) {
        fields := fields[KeyOf(s) := Obj(v.value)];
        changed := [KeyOf(s)];
      }
      assert fields == WithSlot(s, was, pin);
      ghost var mid := fields;
      var modes := PinModes(pin);
      changed := changed + modes;
      DifferingTwo(mid, fields, RUNTIME_MODE, INTERACTION_MODE);
      DifferingThree(was, fields, KeyOf(s), RUNTIME_MODE, INTERACTION_MODE);
    }

    method PinConfigure(pin: Pin) returns (changed: seq<Text>)
      modifies this
      ensures fields == Configured(old(fields), pin)
      ensures changed == Differing(old(fields), fields, [MODEL_SELECTION])
    {
      ghost var was := fields;
      changed := [];
      DifferingOne(was, Configured(was, pin), MODEL_SELECTION);
      if MODEL_SELECTION !in fields || fields[MODEL_SELECTION] == Null { return; }
      var v := Built(Selection, fields[MODEL_SELECTION], pin);
      if v.Some? && fields[MODEL_SELECTION] != Obj(v.value) {
        fields := fields[MODEL_SELECTION := Obj(v.value)];
        changed := [MODEL_SELECTION];
      }
      assert fields == Configured(was, pin);
    }

    method PinCreateThreads(pin: Pin) returns (changed: seq<Change>)
      modifies this
      ensures fields == CreatedThreads(old(fields), pin)
      ensures changed ==
        if Get(old(fields), THREADS).Arr? then ChangedInThreads(old(fields)[THREADS].items, pin) else []
    {
      changed := [];
      if !Get(fields, THREADS).Arr? { return; }
      var threads;
      threads, changed := PinEach(fields[THREADS].items, pin);
      fields := fields[THREADS := Arr(threads)];
    }

    method CapWait(tool: Text, limit: Number, cap: real) returns (changed: bool)
      modifies this
      ensures fields == Capped(tool, old(fields), limit, cap) && WaitRight(tool, old(fields), fields, limit, cap)
      ensures limit.float == Some(cap) ==> (changed <==> fields != old(fields))
    {
      if TIMEOUT_MS !in fields {
        if !IsWait(tool) { return false; }
        fields := fields[TIMEOUT_MS := Num(limit)];
        return true;
      }
      var v := fields[TIMEOUT_MS];
      if !v.Num? { return false; }
      if v.number.float.None? || v.number.float.value <= cap { return false; }
      fields := fields[TIMEOUT_MS := Num(limit)];
      assert limit.float == Some(cap) ==> fields[TIMEOUT_MS] != old(fields)[TIMEOUT_MS];
      return true;
    }
  }

  lemma DifferingOne(a: Fields, b: Fields, x: Text)
    ensures Differing(a, b, [x]) == if Get(a, x) != Get(b, x) then [x] else []
  {
    assert [x][..0] == [];
  }

  lemma DifferingTwo(a: Fields, b: Fields, x: Text, y: Text)
    ensures Differing(a, b, [x, y]) ==
      (if Get(a, x) != Get(b, x) then [x] else []) + (if Get(a, y) != Get(b, y) then [y] else [])
  {
    DifferingOne(a, b, x);
    assert [x, y][..1] == [x];
  }

  lemma DifferingThree(a: Fields, b: Fields, x: Text, y: Text, z: Text)
    ensures Differing(a, b, [x, y, z]) ==
      (if Get(a, x) != Get(b, x) then [x] else []) + (if Get(a, y) != Get(b, y) then [y] else [])
      + (if Get(a, z) != Get(b, z) then [z] else [])
  {
    DifferingTwo(a, b, x, y);
    assert [x, y, z][..2] == [x, y];
  }

  /** pinSelection and pinTarget, with the effort merged by a loop. */
  method Built(s: Slot, cur: Json, pin: Pin) returns (r: Option<Fields>)
    ensures r == PinSlot(s, cur, pin)
  {
    var model, effort := Pinned(pin.model), Pinned(pin.effort);
    if model == EMPTY && effort == EMPTY { return None; }
    var f := FieldsOf(cur);
    if model != EMPTY {
      var inst := TextOf(Get(f, InstanceKey(s)));
      if inst == EMPTY { inst := TextOf(Get(f, LegacyKey(s))); }
      if inst != CLAUDE && (s == Selection || inst != EMPTY) { f := f - {OPTIONS}; }
      f := f - {LegacyKey(s)};
      f := f[InstanceKey(s) := Str(CLAUDE)][MODEL := Str(model)];
    }
    if effort != EMPTY {
      if s == Selection && TextOf(Get(f, MODEL)) == EMPTY { return None; }
      var opts := SetEffort(Get(f, OPTIONS), effort);
      f := f[OPTIONS := opts];
    }
    return Some(f);
  }

  method PinEach(ts: seq<Json>, pin: Pin) returns (r: seq<Json>, changed: seq<Change>)
    ensures r == PinnedThreads(ts, pin)
    ensures changed == ChangedInThreads(ts, pin)
  {
    r, changed := [], [];
    for i := 0 to |ts|
      invariant r == PinnedThreads(ts[..i], pin)
      invariant changed == ChangedInThreads(ts[..i], pin)
    {
      assert ts[..i + 1][..i] == ts[..i];
      if !ts[i].Obj? {
        r := r + [ts[i]];
        continue;
      }
      var thread := new Args(ts[i].fields);
      var names := thread.PinArgs(Target, pin);
      r := r + [Obj(thread.fields)];
      changed := changed + ThreadChanges(i, names);
    }
    assert ts[..|ts|] == ts;
  }

  // ---------- the whole message ----------

  predicate Readable(body: Json) {
    && body.Obj? && Get(body.fields, METHOD) == Str(TOOLS_CALL)
    && Get(body.fields, PARAMS).Obj?
    && var params := body.fields[PARAMS].fields;
       && NAME in params && (params[NAME].Str? || params[NAME].Null?)
       && (Get(params, ARGUMENTS).Null? || params[ARGUMENTS].Obj?)
  }

  function ToolOf(body: Json): Text
    requires Readable(body)
  {
    TextOf(body.fields[PARAMS].fields[NAME])
  }

  function ArgumentsOf(body: Json): Fields
    requires Readable(body)
  {
    FieldsOf(Get(body.fields[PARAMS].fields, ARGUMENTS))
  }

  function WithArguments(body: Json, f: Fields): Json
    requires Readable(body)
  {
    Obj(body.fields[PARAMS := Obj(body.fields[PARAMS].fields[ARGUMENTS := Obj(f)])])
  }

  /** The pin, on the tools it applies to. */
  function PinnedCall(tool: Text, f: Fields, pin: Option<Pin>): Fields {
    if pin.None? then f
    else if tool == LAUNCH then PinnedArgs(Selection, f, pin.value)
    else if tool == CONFIGURE then Configured(f, pin.value)
    else if tool == DELEGATE_TASK then PinnedArgs(Target, f, pin.value)
    else if tool == CREATE_THREADS then CreatedThreads(f, pin.value)
    else f
  }

  function PinChanges(tool: Text, f: Fields, pin: Option<Pin>): seq<Change> {
    var g := PinnedCall(tool, f, pin);
    if pin.None? then []
    else if tool == LAUNCH then FieldChanges(Differing(f, g, SlotKeys(Selection)))
    else if tool == CONFIGURE then FieldChanges(Differing(f, g, [MODEL_SELECTION]))
    else if tool == DELEGATE_TASK then FieldChanges(Differing(f, g, SlotKeys(Target)))
    else if tool == CREATE_THREADS && Get(f, THREADS).Arr? then ChangedInThreads(f[THREADS].items, pin.value)
    else []
  }

  function RewrittenArgs(tool: Text, f: Fields, pin: Option<Pin>, limit: Number, cap: real): Fields {
    Capped(tool, PinnedCall(tool, f, pin), limit, cap)
  }

  function RewrittenBody(body: Json, pin: Option<Pin>, limit: Number, cap: real): Json {
    if !Readable(body) then body else
    var f := RewrittenArgs(ToolOf(body), ArgumentsOf(body), pin, limit, cap);
    if f == ArgumentsOf(body) then body else WithArguments(body, f)
  }

  /** What a rewrite names: the pin's changes, and then the wait's. */
  function Changes(body: Json, pin: Option<Pin>, limit: Number, cap: real): seq<Change>
    requires Readable(body)
  {
    var p := PinnedCall(ToolOf(body), ArgumentsOf(body), pin);
    PinChanges(ToolOf(body), ArgumentsOf(body), pin)
      + if Capped(ToolOf(body), p, limit, cap) != p then [Field(TIMEOUT_MS)] else []
  }

  /** A tools/call message: its top level, its params, the tool it names (none when
      the name is null) and the tool's arguments (none when null or left out). */
  predicate CallsTool(body: Json, top: Fields, params: Fields, tool: Text, f: Fields) {
    && body == Obj(top) && METHOD in top && top[METHOD] == Str(TOOLS_CALL)
    && PARAMS in top && top[PARAMS] == Obj(params)
    && NAME in params && params[NAME] == (if tool == EMPTY && params[NAME].Null? then Null else Str(tool))
    && (if ARGUMENTS in params && params[ARGUMENTS] != Null then params[ARGUMENTS] == Obj(f) else f == map[])
  }

  lemma ReadableIs(body: Json)
    ensures Readable(body) ==>
      CallsTool(body, body.fields, body.fields[PARAMS].fields, ToolOf(body), ArgumentsOf(body))
    ensures forall top: Fields, params: Fields, tool: Text, f: Fields :: CallsTool(body, top, params, tool, f) ==>
      Readable(body) && top == body.fields && params == top[PARAMS].fields && tool == ToolOf(body)
      && f == ArgumentsOf(body)
  {
  }

  /** rewriteMCPBody: the same body when nothing applies or it cannot be read. */
  method RewriteBody(body: Json, pin: Option<Pin>, limit: Number, cap: real)
    returns (out: Json, changed: seq<Change>, ghost args: Fields)
    requires limit.float == Some(cap)
    // A call goes on with `args` in place of its arguments, which carry the pin and
    // the cap, and nothing else of it changed; anything else goes on as it is.
    ensures forall top: Fields, params: Fields, tool: Text, f: Fields :: CallsTool(body, top, params, tool, f) ==>
      && out == (if args == f then body else Obj(top[PARAMS := Obj(params[ARGUMENTS := Obj(args)])]))
      && (pin.Some? ==> PinRight(tool, f, args, pin.value)) && WaitRight(tool, f, args, limit, cap)
    ensures
      (forall top: Fields, params: Fields, tool: Text, f: Fields :: !CallsTool(body, top, params, tool, f)) ==>
        out == body
    ensures out == RewrittenBody(body, pin, limit, cap)
    ensures changed == [] <==> out == body
    ensures changed == if Readable(body) then Changes(body, pin, limit, cap) else []
  {
    ReadableIs(body);
    args := map[];
    if !Readable(body) { return body, [], args; }
    var name, f := ToolOf(body), ArgumentsOf(body);
    args := RewrittenArgs(name, f, pin, limit, cap);
    PinsHold(name, f, pin, limit, cap);
    var a := new Args(f);
    changed := PinCall(a, name, pin);
    PinNames(name, f, pin);
    var capped := a.CapWait(name, limit, cap);
    if capped { changed := changed + [Field(TIMEOUT_MS)]; }
    CapApart(name, f, pin, limit, cap);
    if |changed| == 0 { return body, [], args; }
    out := WithArguments(body, a.fields);
    assert ArgumentsOf(out) == a.fields;
  }

  method PinCall(a: Args, tool: Text, pin: Option<Pin>) returns (changed: seq<Change>)
    modifies a
    ensures a.fields == PinnedCall(tool, old(a.fields), pin)
    ensures changed == PinChanges(tool, old(a.fields), pin)
  {
    changed := [];
    if pin.None? { return; }
    var names: seq<Text>;
    if tool == LAUNCH {
      names := a.PinArgs(Selection, pin.value);
      changed := FieldChanges(names);
    } else if tool == CONFIGURE {
      names := a.PinConfigure(pin.value);
      changed := FieldChanges(names);
    } else if tool == DELEGATE_TASK {
      names := a.PinArgs(Target, pin.value);
      changed := FieldChanges(names);
    } else if tool == CREATE_THREADS {
      changed := a.PinCreateThreads(pin.value);
    }
  }

  // ---------- what stays, and which names are named ----------

  predicate SameAt(f: Fields, g: Fields, k: Text) {
    (k in f <==> k in g) && Get(f, k) == Get(g, k)
  }

  lemma Same(f: Fields, g: Fields)
    requires forall k: Text :: SameAt(f, g, k)
    ensures f == g
  {
    forall k: Text ensures k in f <==> k in g { assert SameAt(f, g, k); }
    forall k | k in f ensures f[k] == g[k] { assert SameAt(f, g, k); }
  }

  lemma {:induction false} DifferingIs(a: Fields, b: Fields, ks: seq<Text>, k: Text)
    ensures k in Differing(a, b, ks) <==> k in ks && Get(a, k) != Get(b, k)
  {
    if ks != [] {
      var n := |ks| - 1;
      DifferingIs(a, b, ks[..n], k);
      assert ks == ks[..n] + [ks[n]];
    }
  }

  /** Pinning a call's arguments changes only the fields it names, and names
      exactly those whose value it changed. */
  lemma ArgsNamed(s: Slot, f: Fields, pin: Pin, k: Text)
    ensures var g := PinnedArgs(s, f, pin);
      && (k !in SlotKeys(s) ==> SameAt(f, g, k))
      && (Get(f, k) == Get(g, k) ==> SameAt(f, g, k))
      && (k in Differing(f, g, SlotKeys(s)) <==> !SameAt(f, g, k))
  {
    DifferingIs(f, PinnedArgs(s, f, pin), SlotKeys(s), k);
  }

  lemma NothingNamed(s: Slot, f: Fields, pin: Pin)
    ensures Differing(f, PinnedArgs(s, f, pin), SlotKeys(s)) == [] <==> PinnedArgs(s, f, pin) == f
  {
    var g := PinnedArgs(s, f, pin);
    if Differing(f, g, SlotKeys(s)) == [] {
      forall k: Text ensures SameAt(f, g, k) { ArgsNamed(s, f, pin, k); }
      Same(f, g);
    } else {
      var k := Differing(f, g, SlotKeys(s))[0];
      ArgsNamed(s, f, pin, k);
    }
  }

  lemma {:induction false} NoThreadNamed(ts: seq<Json>, pin: Pin)
    ensures ChangedInThreads(ts, pin) == [] <==> PinnedThreads(ts, pin) == ts
  {
    if ts != [] {
      var n := |ts| - 1;
      NoThreadNamed(ts[..n], pin);
      assert ts == ts[..n] + [ts[n]];
      if ts[n].Obj? {
        NothingNamed(Target, ts[n].fields, pin);
        assert ThreadChanges(n, []) == [];
      }
      var p := PinnedThreads(ts, pin);
      assert p[..n] == PinnedThreads(ts[..n], pin) && p[n] == PinnedThread(ts[n], pin);
      if p == ts { assert p[..n] == ts[..n]; }
    }
  }

  lemma ConfigureNames(f: Fields, pin: Pin)
    ensures Differing(f, Configured(f, pin), [MODEL_SELECTION]) == [] <==> Configured(f, pin) == f
  {
    var c := Configured(f, pin);
    DifferingOne(f, c, MODEL_SELECTION);
    if Get(c, MODEL_SELECTION) == Get(f, MODEL_SELECTION) {
      forall k: Text ensures SameAt(f, c, k) {}
      Same(f, c);
    }
  }

  lemma ThreadsNames(f: Fields, pin: Pin)
    requires Get(f, THREADS).Arr?
    ensures ChangedInThreads(f[THREADS].items, pin) == [] <==> CreatedThreads(f, pin) == f
  {
    NoThreadNamed(f[THREADS].items, pin);
    if PinnedThreads(f[THREADS].items, pin) == f[THREADS].items {
      assert CreatedThreads(f, pin) == f;
    } else {
      assert CreatedThreads(f, pin)[THREADS] != f[THREADS];
    }
  }

  /** A field is named exactly when something changed. */
  lemma PinNames(tool: Text, f: Fields, pin: Option<Pin>)
    ensures PinChanges(tool, f, pin) == [] <==> PinnedCall(tool, f, pin) == f
  {
    if pin.Some? {
      if tool == LAUNCH {
        NothingNamed(Selection, f, pin.value);
        var d := Differing(f, PinnedArgs(Selection, f, pin.value), SlotKeys(Selection));
        assert |FieldChanges(d)| == |d|;
      } else if tool == CONFIGURE {
        ConfigureNames(f, pin.value);
        var d := Differing(f, Configured(f, pin.value), [MODEL_SELECTION]);
        assert |FieldChanges(d)| == |d|;
      } else if tool == DELEGATE_TASK {
        NothingNamed(Target, f, pin.value);
        var d := Differing(f, PinnedArgs(Target, f, pin.value), SlotKeys(Target));
        assert |FieldChanges(d)| == |d|;
      } else if tool == CREATE_THREADS && Get(f, THREADS).Arr? {
        ThreadsNames(f, pin.value);
      }
    }
  }

  /** The pin and the cap change different fields. */
  lemma CapApart(tool: Text, f: Fields, pin: Option<Pin>, limit: Number, cap: real)
    ensures SameAt(f, PinnedCall(tool, f, pin), TIMEOUT_MS)
    ensures Capped(tool, PinnedCall(tool, f, pin), limit, cap) == f ==> PinnedCall(tool, f, pin) == f
  {
    var g := PinnedCall(tool, f, pin);
    if Capped(tool, g, limit, cap) == f {
      forall k: Text ensures SameAt(f, g, k) {
        if k != TIMEOUT_MS { assert SameAt(Capped(tool, g, limit, cap), g, k); }
      }
      Same(f, g);
    }
  }

  // ---------- the rewrite is a projection ----------

  lemma SlotAgain(s: Slot, f: Fields, pin: Pin)
    ensures WithSlot(s, WithSlot(s, f, pin), pin) == WithSlot(s, f, pin)
  {
    SlotPinned(s, Get(f, KeyOf(s)), pin);
  }

  lemma ArgsAgain(s: Slot, f: Fields, pin: Pin)
    ensures PinnedArgs(s, PinnedArgs(s, f, pin), pin) == PinnedArgs(s, f, pin)
  {
    var a := WithSlot(s, f, pin);
    var g := WithModes(a, pin);
    SlotAgain(s, f, pin);
    assert Get(g, KeyOf(s)) == Get(a, KeyOf(s));
    if PinSlot(s, Get(a, KeyOf(s)), pin).Some? {
      assert a[KeyOf(s)] == Obj(PinSlot(s, Get(a, KeyOf(s)), pin).value);
      assert g[KeyOf(s) := g[KeyOf(s)]] == g;
    }
  }

  lemma {:induction false} ThreadsAgain(ts: seq<Json>, pin: Pin)
    ensures PinnedThreads(PinnedThreads(ts, pin), pin) == PinnedThreads(ts, pin)
  {
    var p := PinnedThreads(ts, pin);
    var q := PinnedThreads(p, pin);
    forall i | 0 <= i < |ts| ensures q[i] == p[i] {
      if ts[i].Obj? { ArgsAgain(Target, ts[i].fields, pin); }
    }
  }

  lemma CallAgain(tool: Text, f: Fields, pin: Option<Pin>)
    ensures PinnedCall(tool, PinnedCall(tool, f, pin), pin) == PinnedCall(tool, f, pin)
  {
    if pin.Some? {
      if tool == LAUNCH {
        ArgsAgain(Selection, f, pin.value);
      } else if tool == CONFIGURE {
        SlotAgain(Selection, f, pin.value);
      } else if tool == DELEGATE_TASK {
        ArgsAgain(Target, f, pin.value);
      } else if tool == CREATE_THREADS && Get(f, THREADS).Arr? {
        ThreadsAgain(f[THREADS].items, pin.value);
      }
    }
  }

  /** The pin does not look at the timeout. */
  lemma PinIgnoresTimeout(tool: Text, f: Fields, pin: Option<Pin>, v: Json)
    requires PinnedCall(tool, f, pin) == f
    ensures PinnedCall(tool, f[TIMEOUT_MS := v], pin) == f[TIMEOUT_MS := v]
  {
    var g := f[TIMEOUT_MS := v];
    if pin.Some? {
      forall k: Text ensures SameAt(g, PinnedCall(tool, g, pin), k) {
        assert SameAt(f, PinnedCall(tool, f, pin), k);
        assert k != TIMEOUT_MS ==> Get(g, k) == Get(f, k);
      }
      Same(g, PinnedCall(tool, g, pin));
    }
  }

  lemma ArgsProjection(tool: Text, f: Fields, pin: Option<Pin>, limit: Number, cap: real)
    requires limit.float == Some(cap)
    ensures var g := RewrittenArgs(tool, f, pin, limit, cap); RewrittenArgs(tool, g, pin, limit, cap) == g
  {
    var p := PinnedCall(tool, f, pin);
    var g := RewrittenArgs(tool, f, pin, limit, cap);
    CallAgain(tool, f, pin);
    if g != p { PinIgnoresTimeout(tool, p, pin, Num(limit)); }
    assert PinnedCall(tool, g, pin) == g;
  }

  /** A call rewritten once is left as it is by a second rewrite, which then
      names no field. */
  lemma RewriteIsProjection(body: Json, pin: Option<Pin>, limit: Number, cap: real)
    requires limit.float == Some(cap)
    ensures var r := RewrittenBody(body, pin, limit, cap); RewrittenBody(r, pin, limit, cap) == r
  {
    if Readable(body) {
      ArgsProjection(ToolOf(body), ArgumentsOf(body), pin, limit, cap);
      var r := RewrittenBody(body, pin, limit, cap);
      assert Readable(r) && ToolOf(r) == ToolOf(body);
    }
  }

  // ---------- the pin and the cap hold ----------

  // What the protocol must say, field by field.

  predicate Forces(v: Text) {
    v != EMPTY && v != INHERIT
  }

  /** One effort among the options, the pinned one: an "effort" option or, in the
      older form, an "effort" field. */
  predicate OneEffort(options: Json, effort: Text) {
    match options
    case Obj(f) => EFFORT in f && f[EFFORT] == Str(effort)
    case Arr(o) => exists i :: 0 <= i < |o| && OnlyEffort(o, i, effort)
    case _ => false
  }

  predicate OnlyEffort(o: seq<Json>, i: nat, effort: Text)
    requires i < |o|
  {
    && o[i].Obj? && Get(o[i].fields, ID) == Str(EFFORT) && Get(o[i].fields, VALUE) == Str(effort)
    && forall j :: 0 <= j < |o| && j != i ==> !(o[j].Obj? && Get(o[j].fields, ID) == Str(EFFORT))
  }

  /** A model-bearing field as sent and as passed on. A forced model is there on
      Claude and the provider's older name is not; a forced effort is the only one
      (a selection takes one only for a model); everything else is as sent. */
  ghost predicate FieldRight(sent: Json, now: Json, pin: Pin, instance: Text, legacy: Text, modelNeeded: bool) {
    var was := FieldsOf(sent);
    var named := MODEL in was && was[MODEL].Str? && was[MODEL].text != EMPTY;
    if !Forces(pin.model) && !(Forces(pin.effort) && (named || !modelNeeded)) then now == sent else
    && now.Obj?
    && (Forces(pin.model) ==>
          && Get(now.fields, MODEL) == Str(pin.model) && Get(now.fields, instance) == Str(CLAUDE)
          && legacy !in now.fields)
    && (Forces(pin.effort) ==> OneEffort(Get(now.fields, OPTIONS), pin.effort))
    && forall k :: k != OPTIONS && !(Forces(pin.model) && (k == MODEL || k == instance || k == legacy)) ==>
         SameAt(was, now.fields, k)
  }

  /** The runtime mode and the interaction mode a permission stands for. */
  predicate ModesRight(was: Fields, now: Fields, permission: Text) {
    var runtime, interaction := Get(now, RUNTIME_MODE), Get(now, INTERACTION_MODE);
    if permission in {BYPASS_PERMISSIONS, ACCEPT_EDITS, DEFAULT, PLAN} then
      && (runtime == Str(FULL_ACCESS) <==> permission == BYPASS_PERMISSIONS)
      && (runtime == Str(AUTO_ACCEPT_EDITS) <==> permission == ACCEPT_EDITS)
      && (runtime == Str(APPROVAL_REQUIRED) <==> permission == DEFAULT || permission == PLAN)
      && (interaction == Str(PLAN) <==> permission == PLAN)
      && (interaction == Str(DEFAULT) <==> permission != PLAN)
    else
      SameAt(was, now, RUNTIME_MODE) && SameAt(was, now, INTERACTION_MODE)
  }

  ghost predicate LaunchRight(was: Fields, now: Fields, pin: Pin) {
    && FieldRight(Get(was, MODEL_SELECTION), Get(now, MODEL_SELECTION), pin, INSTANCE_ID, PROVIDER, true)
    && ModesRight(was, now, pin.permission)
  }

  /** A task's arguments, or one created thread. */
  ghost predicate TaskRight(was: Fields, now: Fields, pin: Pin) {
    && FieldRight(Get(was, TARGET), Get(now, TARGET), pin, PROVIDER_INSTANCE_ID, DRIVER_KIND, false)
    && ModesRight(was, now, pin.permission)
  }

  ghost predicate PinRight(tool: Text, was: Fields, now: Fields, pin: Pin) {
    && (tool == LAUNCH ==> LaunchRight(was, now, pin))
    && (tool == DELEGATE_TASK ==> TaskRight(was, now, pin))
    && (tool == CONFIGURE && Get(was, MODEL_SELECTION) != Null ==>
          FieldRight(Get(was, MODEL_SELECTION), Get(now, MODEL_SELECTION), pin, INSTANCE_ID, PROVIDER, true))
    && (tool == CREATE_THREADS && Get(was, THREADS).Arr? ==>
          && Get(now, THREADS).Arr? && |now[THREADS].items| == |was[THREADS].items|
          && forall i :: 0 <= i < |was[THREADS].items| ==>
               ThreadRight(was[THREADS].items[i], now[THREADS].items[i], pin))
  }

  ghost predicate ThreadRight(was: Json, now: Json, pin: Pin) {
    if was.Obj? then now.Obj? && TaskRight(was.fields, now.fields, pin) else now == was
  }

  /** A wait with no timeout gets the cap; a timeout over it is lowered to it; and
      any other timeout, or none where the tool does not wait, is as sent. */
  predicate WaitRight(tool: Text, was: Fields, now: Fields, limit: Number, cap: real) {
    var t := Get(was, TIMEOUT_MS);
    var tooLong := TIMEOUT_MS in was && t.Num? && t.number.float.Some? && t.number.float.value > cap;
    if tooLong || (TIMEOUT_MS !in was && (tool == THREAD_WAIT || tool == BACKGROUND_WAIT))
    then TIMEOUT_MS in now && now[TIMEOUT_MS] == Num(limit)
    else SameAt(was, now, TIMEOUT_MS)
  }

  lemma {:induction false} EffortsOne(o: seq<Json>, effort: Text)
    requires Efforts(o) == [EffortOption(effort)]
    ensures exists i: nat :: i < |o| && OnlyEffort(o, i, effort)
  {
    if IsEffort(o[0]) {
      assert Efforts(o)[0] == o[0] && Efforts(o)[1..] == Efforts(o[1..]);
      NoEfforts(o[1..]);
      assert forall j :: 0 < j < |o| ==> o[j] == o[1..][j - 1];
      assert OnlyEffort(o, 0, effort);
    } else {
      EffortsOne(o[1..], effort);
      var i: nat :| i < |o| - 1 && OnlyEffort(o[1..], i, effort);
      assert forall j :: 0 < j < |o| ==> o[j] == o[1..][j - 1];
      assert OnlyEffort(o, i + 1, effort);
    }
  }

  lemma {:induction false} NoEfforts(o: seq<Json>)
    requires Efforts(o) == []
    ensures forall j :: 0 <= j < |o| ==> !IsEffort(o[j])
  {
    if o != [] {
      NoEfforts(o[1..]);
      assert forall j :: 0 < j < |o| ==> o[j] == o[1..][j - 1];
    }
  }

  lemma EffortOne(opts: Json, effort: Text)
    requires CarriesEffort(opts, effort)
    ensures OneEffort(opts, effort)
  {
    if opts.Arr? { EffortsOne(opts.items, effort); }
  }

  /** What is built for a field is what it must be. */
  lemma SlotRight(s: Slot, cur: Json, pin: Pin)
    ensures FieldRight(cur, if PinSlot(s, cur, pin).Some? then Obj(PinSlot(s, cur, pin).value) else cur, pin,
                       InstanceKey(s), LegacyKey(s), s == Selection)
  {
    SlotPinned(s, cur, pin);
    if PinSlot(s, cur, pin).Some? {
      var f := PinSlot(s, cur, pin).value;
      hide CarriesEffort, OneEffort, WithEffort;
      if Forces(pin.effort) { EffortOne(Get(f, OPTIONS), pin.effort); }
      forall k | k != OPTIONS && !(Forces(pin.model) && (k == MODEL || k == InstanceKey(s) || k == LegacyKey(s)))
        ensures SameAt(FieldsOf(cur), f, k)
      {
      }
    }
  }

  lemma ModesMade(f: Fields, pin: Pin)
    ensures ModesRight(f, WithModes(f, pin), pin.permission)
    ensures forall k: Text :: k != RUNTIME_MODE && k != INTERACTION_MODE ==> SameAt(f, WithModes(f, pin), k)
  {
  }

  lemma ArgsMade(s: Slot, f: Fields, pin: Pin)
    ensures s == Selection ==> LaunchRight(f, PinnedArgs(s, f, pin), pin)
    ensures s == Target ==> TaskRight(f, PinnedArgs(s, f, pin), pin)
  {
    hide FieldRight, ModesRight, PinSlot, WithModes;
    var a := WithSlot(s, f, pin);
    SlotRight(s, Get(f, KeyOf(s)), pin);
    ModesMade(a, pin);
    assert SameAt(a, WithModes(a, pin), KeyOf(s));
    ModesOver(f, a, WithModes(a, pin), pin.permission);
  }

  lemma ModesOver(f: Fields, a: Fields, g: Fields, permission: Text)
    requires SameAt(f, a, RUNTIME_MODE) && SameAt(f, a, INTERACTION_MODE) && ModesRight(a, g, permission)
    ensures ModesRight(f, g, permission)
  {
  }

  lemma CallMade(tool: Text, f: Fields, pin: Pin)
    ensures PinRight(tool, f, PinnedCall(tool, f, Some(pin)), pin)
  {
    hide LaunchRight, TaskRight, FieldRight, PinnedArgs, PinSlot;
    ArgsMade(Selection, f, pin);
    ArgsMade(Target, f, pin);
    SlotRight(Selection, Get(f, MODEL_SELECTION), pin);
    if tool == CREATE_THREADS && Get(f, THREADS).Arr? {
      forall i | 0 <= i < |f[THREADS].items|
        ensures ThreadRight(f[THREADS].items[i], PinnedThreads(f[THREADS].items, pin)[i], pin)
      {
        if f[THREADS].items[i].Obj? { ArgsMade(Target, f[THREADS].items[i].fields, pin); }
      }
    }
  }

  /** Whatever a caller sends, what reaches T3 carries every model, effort and
      mode the pin forces wherever the tool can carry it, no wait over the cap,
      and no wait tool without a timeout. */
  lemma PinsHold(tool: Text, f: Fields, pin: Option<Pin>, limit: Number, cap: real)
    ensures var g := RewrittenArgs(tool, f, pin, limit, cap);
      && (if pin.Some? then PinRight(tool, f, g, pin.value) else forall k: Text :: k != TIMEOUT_MS ==> SameAt(f, g, k))
      && WaitRight(tool, f, g, limit, cap)
  {
    assert pin.None? ==> PinnedCall(tool, f, pin) == f;
    hide PinnedCall, LaunchRight, TaskRight, FieldRight, ThreadRight;
    var p, g := PinnedCall(tool, f, pin), RewrittenArgs(tool, f, pin, limit, cap);
    CapApart(tool, f, pin, limit, cap);
    if pin.Some? {
      CallMade(tool, f, pin.value);
      assert forall k: Text :: k != TIMEOUT_MS ==> Get(g, k) == Get(p, k);
      PinStays(tool, f, p, g, pin.value);
    }
  }

  /** The cap touches nothing the pin is about. */
  lemma PinStays(tool: Text, f: Fields, p: Fields, g: Fields, pin: Pin)
    requires PinRight(tool, f, p, pin) && forall k: Text :: k != TIMEOUT_MS ==> SameAt(p, g, k)
    ensures PinRight(tool, f, g, pin)
  {
    hide FieldRight, ThreadRight;
    assert SameAt(p, g, MODEL_SELECTION) && SameAt(p, g, TARGET) && SameAt(p, g, THREADS);
    assert SameAt(p, g, RUNTIME_MODE) && SameAt(p, g, INTERACTION_MODE);
  }

  // ---------- what is not named stays ----------

  /** Every field of every thread that is not named stays as it was sent. */
  lemma {:induction false} ThreadUnnamed(ts: seq<Json>, pin: Pin, i: nat, k: Text)
    requires i < |ts| && ts[i].Obj? && ThreadField(i, k) !in ChangedInThreads(ts, pin)
    ensures SameAt(ts[i].fields, PinnedThread(ts[i], pin).fields, k)
  {
    var n := |ts| - 1;
    if i < n {
      assert ts[..n][i] == ts[i];
      ThreadUnnamed(ts[..n], pin, i, k);
    } else {
      var d := Differing(ts[n].fields, PinnedThread(ts[n], pin).fields, SlotKeys(Target));
      assert forall j :: 0 <= j < |d| ==> ThreadChanges(n, d)[j] == ThreadField(n, d[j]);
      ArgsNamed(Target, ts[n].fields, pin, k);
    }
  }

  /** The pin leaves every argument it does not name. */
  lemma PinUnnamed(tool: Text, f: Fields, pin: Option<Pin>, k: Text)
    requires Field(k) !in PinChanges(tool, f, pin) && !(PinsThreads(tool, f, pin) && k == THREADS)
    ensures SameAt(f, PinnedCall(tool, f, pin), k)
  {
    var g := PinnedCall(tool, f, pin);
    if pin.Some? && (tool == LAUNCH || tool == DELEGATE_TASK) {
      var s := if tool == LAUNCH then Selection else Target;
      FieldNamed(Differing(f, g, SlotKeys(s)), k);
      ArgsNamed(s, f, pin.value, k);
    } else if pin.Some? && tool == CONFIGURE {
      FieldNamed(Differing(f, g, [MODEL_SELECTION]), k);
      DifferingIs(f, g, [MODEL_SELECTION], k);
    }
  }

  lemma FieldNamed(names: seq<Text>, k: Text)
    ensures Field(k) in FieldChanges(names) <==> k in names
  {
    assert forall j :: 0 <= j < |names| ==> FieldChanges(names)[j] == Field(names[j]);
  }

  /** The call's threads are pinned one by one. */
  predicate PinsThreads(tool: Text, f: Fields, pin: Option<Pin>) {
    pin.Some? && tool == CREATE_THREADS && Get(f, THREADS).Arr?
  }

  /** Whatever is rewritten, every argument not named as changed is as it was
      sent, timeoutMs included; when threads are pinned they are as many as before,
      an entry that is no object stays, and so does every field of every thread
      not named with it; and nothing of the message but the arguments changes. */
  lemma UnnamedStays(body: Json, pin: Option<Pin>, limit: Number, cap: real, k: Text, i: nat)
    requires Readable(body) && limit.float == Some(cap)
    ensures Readable(RewrittenBody(body, pin, limit, cap))
    ensures var r, named := RewrittenBody(body, pin, limit, cap), Changes(body, pin, limit, cap);
      var tool, f, g := ToolOf(body), ArgumentsOf(body), ArgumentsOf(r);
      && (Field(k) !in named && !(PinsThreads(tool, f, pin) && k == THREADS) ==> SameAt(f, g, k))
      && (PinsThreads(tool, f, pin) ==>
            && Get(g, THREADS).Arr? && |g[THREADS].items| == |f[THREADS].items|
            && (i < |f[THREADS].items| ==>
                  var t, u := f[THREADS].items[i], g[THREADS].items[i];
                  if !t.Obj? then u == t
                  else u.Obj? && (ThreadField(i, k) !in named ==> SameAt(t.fields, u.fields, k))))
  {
    var tool, f := ToolOf(body), ArgumentsOf(body);
    var p := PinnedCall(tool, f, pin);
    BodyArguments(body, pin, limit, cap);
    if Field(k) !in Changes(body, pin, limit, cap) && !(PinsThreads(tool, f, pin) && k == THREADS) {
      PinUnnamed(tool, f, pin, k);
    }
    if PinsThreads(tool, f, pin) && i < |f[THREADS].items| && f[THREADS].items[i].Obj?
      && ThreadField(i, k) !in Changes(body, pin, limit, cap) {
      ThreadUnnamed(f[THREADS].items, pin.value, i, k);
    }
  }

  /** The rest of the message stays, and its arguments are the rewritten ones. */
  lemma BodyArguments(body: Json, pin: Option<Pin>, limit: Number, cap: real)
    requires Readable(body)
    ensures var r := RewrittenBody(body, pin, limit, cap);
      && Readable(r) && ToolOf(r) == ToolOf(body)
      && ArgumentsOf(r) == RewrittenArgs(ToolOf(body), ArgumentsOf(body), pin, limit, cap)
      && (forall k: Text :: k != PARAMS ==> SameAt(body.fields, r.fields, k))
      && (forall k: Text :: k != ARGUMENTS ==> SameAt(body.fields[PARAMS].fields, r.fields[PARAMS].fields, k))
  {
  }
}
