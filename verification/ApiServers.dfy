/** The API server as one controller calls it. Before each request everyone else may act any
    number of times, and the request itself may be refused, fail, or take effect without its
    caller learning of it. */
module ApiServers {
  import opened Conditions
  import opened Runs
  import opened RunWrites
  import opened Configs
  import opened Machine

  /** LostReply: a write took effect, but its caller sees a failure. */
  datatype Fault = NoFault | Unavailable | LostReply

  /** What happens before one request, and how the request fares. */
  datatype Turn = Turn(before: seq<Action>, fault: Fault)

  datatype Lookup<+T> = Got(value: T) | Missing | Unreachable

  datatype Reply<+T> = Patched(value: T) | Conflict | PatchFailed

  datatype Verdict = InForce | Superseded | Undecided

  lemma Remembered(s: State, t: State)
    requires LaterState(s, t)
    ensures s.log <= t.log && s.configLog <= t.configLog && s.clock <= t.clock
  {
  }

  lemma StoredIsLogged(s: State, name: string)
    requires Inv(s) && name in s.runs
    ensures s.runs[name] in s.log && s.runs[name].name == name
  {
  }

  /** A patch whose lock holds replaces the stored run. */
  lemma PatchTakesEffect(s: State, base: Run, w: Write)
    requires Inv(s) && base in s.log && Enabled(base, w) && Unchanged(s, base)
    ensures var t := Apply(s, Action.PatchRun(base, w));
            && Inv(t) && LaterState(s, t) && t.clock == s.clock
            && Stored(t, base.name, base.uid) && t.runs[base.name] in t.log
            && t.runs[base.name] == Updated(base, w, t.clock).(version := t.runs[base.name].version)
  {
    ActionKeeps(s, Action.PatchRun(base, w));
  }

  lemma ConfigPatchTakesEffect(s: State, base: Config, w: ConfigWrite)
    requires Inv(s) && CanPatchConfig(s, base, w)
    ensures var t := Apply(s, Action.PatchConfig(base, w));
            && Inv(t) && LaterState(s, t) && t.clock == s.clock
            && t.config.Some? && t.config.value in t.configLog
            && t.config.value == ConfigUpdated(base, w, t.clock).(version := t.config.value.version)
  {
    ActionKeeps(s, Action.PatchConfig(base, w));
  }

  lemma StillSound(s: State, t: State, p: Pass)
    requires Inv(s) && Inv(t) && LaterState(s, t) && PassSound(s, p)
    ensures PassSound(t, p)
  {
    PassStaysSound(s, t, p);
  }

  /** The stored configuration represents the activation. */
  predicate Represents(s: State, a: Activation) {
    s.config.Some? && ActivationMatches(s.config.value, a)
  }

  /** In some state between s and t, the activation was not in force. */
  ghost predicate Lapsed(s: State, t: State, a: Activation) {
    exists m :: Inv(m) && LaterState(s, m) && LaterState(m, t) && !Represents(m, a)
  }

  lemma LapsedNow(s: State, t: State, a: Activation)
    requires Inv(t) && LaterState(s, t) && !Represents(t, a)
    ensures Lapsed(s, t, a)
  {
    hide Inv, LaterState, Represents;
    LaterStateReflexive(t);
  }

  lemma LapsedWithin(s: State, from: State, to: State, t: State, a: Activation)
    requires LaterState(s, from) && Lapsed(from, to, a) && LaterState(to, t)
    ensures Lapsed(s, t, a)
  {
    hide Inv, LaterState, Represents;
    var m :| Inv(m) && LaterState(from, m) && LaterState(m, to) && !Represents(m, a);
    LaterStateTransitive(s, from, m);
    LaterStateTransitive(m, to, t);
  }

  /** The state once the others have had their next turn. */
  function Turned(s: State, script: seq<Turn>): State {
    if script == [] then s else Exec(s, script[0].before)
  }

  function Rest(script: seq<Turn>): seq<Turn> {
    if script == [] then [] else script[1..]
  }

  /** Nobody else revises this run. */
  ghost predicate Unrevised(script: seq<Turn>, uid: Uid) {
    forall turn, a :: turn in script && a in turn.before ==> !IsRevision(a, uid)
  }

  /** Runs that nobody else revises keep their deadlines, now and later. */
  ghost predicate Calm(before: seq<Turn>, after: seq<Turn>, s: State, t: State) {
    forall u :: Unrevised(before, u) ==> Unrevised(after, u) && DeadlineKept(s, t, u)
  }

  lemma CalmTransitive(a: seq<Turn>, b: seq<Turn>, c: seq<Turn>, s: State, t: State, v: State)
    requires Inv(s) && LaterState(s, t) && LaterState(t, v) && Calm(a, b, s, t) && Calm(b, c, t, v)
    ensures Calm(a, c, s, v)
  {
    forall u | Unrevised(a, u)
      ensures Unrevised(c, u) && DeadlineKept(s, v, u)
    {
      assert Unrevised(b, u);
      DeadlineKeptTransitive(s, t, v, u);
    }
  }

  /** Requests of one turn, each of which leaves alone whatever the turn leaves alone. */
  ghost predicate TurnKept(turn: Turn, s: State, t: State) {
    forall u :: (forall a :: a in turn.before ==> !IsRevision(a, u)) ==> DeadlineKept(s, t, u)
  }

  lemma TurnStep(turn: Turn, s: State, t: State, a: Action)
    requires Inv(s) && Inv(t) && LaterState(s, t) && TurnKept(turn, s, t) && a in turn.before
    ensures TurnKept(turn, s, Apply(t, a))
  {
    ActionKeeps(t, a);
    forall u | forall b :: b in turn.before ==> !IsRevision(b, u)
      ensures DeadlineKept(s, Apply(t, a), u)
    {
      DeadlineStands(t, a, u);
      DeadlineKeptTransitive(s, t, Apply(t, a), u);
    }
  }

  lemma TurnIsCalm(script: seq<Turn>, s: State, t: State)
    requires script != [] && TurnKept(script[0], s, t)
    ensures Calm(script, script[1..], s, t)
  {
    forall u | Unrevised(script, u)
      ensures Unrevised(script[1..], u) && DeadlineKept(s, t, u)
    {
      assert script[0] in script;
    }
  }

  lemma NothingTurned(turn: Turn, s: State)
    ensures TurnKept(turn, s, s)
  {
  }

  lemma NothingMoves(script: seq<Turn>, s: State)
    ensures Calm(script, script, s, s)
  {
  }

  lemma PatchIsCalm(script: seq<Turn>, s: State, base: Run, w: Write)
    requires Inv(s) && !w.Revise?
    ensures Calm(script, script, s, Apply(s, Action.PatchRun(base, w)))
  {
    forall u | Unrevised(script, u)
      ensures DeadlineKept(s, Apply(s, Action.PatchRun(base, w)), u)
    {
      DeadlineStands(s, Action.PatchRun(base, w), u);
    }
  }

  /** A run patch of this controller that took effect. */
  datatype Issued = Issued(base: Run, w: Write)

  /** In some state between s and t no run bears this name. */
  ghost predicate WasAbsent(s: State, t: State, name: string) {
    exists m :: Inv(m) && LaterState(s, m) && LaterState(m, t) && name !in m.runs
  }

  lemma AbsentNow(s: State, t: State, name: string)
    requires Inv(t) && LaterState(s, t) && name !in t.runs
    ensures WasAbsent(s, t, name)
  {
    hide Inv, LaterState;
    LaterStateReflexive(t);
  }

  lemma AbsentLonger(s: State, t: State, u: State, name: string)
    requires WasAbsent(s, t, name) && LaterState(t, u)
    ensures WasAbsent(s, u, name)
  {
    hide Inv, LaterState;
    var m :| Inv(m) && LaterState(s, m) && LaterState(m, t) && name !in m.runs;
    LaterStateTransitive(m, t, u);
  }

  /** In some state between s and t the run of this UID does not bear this name. */
  ghost predicate WasGone(s: State, t: State, name: string, uid: Uid) {
    exists m :: Inv(m) && LaterState(s, m) && LaterState(m, t) && !Stored(m, name, uid)
  }

  lemma GoneNow(s: State, t: State, name: string, uid: Uid)
    requires Inv(t) && LaterState(s, t) && !Stored(t, name, uid)
    ensures WasGone(s, t, name, uid)
  {
    hide Inv, LaterState, Stored;
    LaterStateReflexive(t);
  }

  lemma GoneSince(s: State, from: State, t: State, name: string, uid: Uid)
    requires LaterState(s, from) && WasGone(from, t, name, uid)
    ensures WasGone(s, t, name, uid)
  {
    hide Inv, LaterState, Stored;
    var m :| Inv(m) && LaterState(from, m) && LaterState(m, t) && !Stored(m, name, uid);
    LaterStateTransitive(s, from, m);
  }

  lemma DeletedIsGone(s: State, name: string)
    ensures name !in Apply(s, Action.DeleteRun(name)).runs
  {
  }

  class ApiServer {
    var st: State
    var script: seq<Turn>
    ghost var issued: seq<Issued>
    /** Its configuration patches that took effect. */
    ghost var written: seq<ConfigWrite>
    /** Runs this controller's deletes removed, as they were stored. */
    ghost var removed: seq<Run>
    /** How many of its requests failed, or found what they were to change gone or newer. */
    ghost var setbacks: nat

    ghost predicate Valid()
      reads this
    {
      Inv(st)
    }

    constructor (script: seq<Turn>)
      ensures Valid() && st == INITIAL && this.script == script && issued == [] && written == [] && removed == [] && setbacks == 0
    {
      InitialInv();
      issued, written, removed, setbacks := [], [], [], 0;
      st := INITIAL;
      this.script := script;
    }

    method Interleave() returns (fault: Fault)
      requires Valid()
      modifies this
      ensures Valid() && LaterState(old(st), st) && issued == old(issued) && written == old(written) && removed == old(removed) && setbacks == old(setbacks)
      ensures Calm(old(script), script, old(st), st)
      ensures st == Turned(old(st), old(script)) && script == Rest(old(script))
    {
      hide Inv, LaterState, Apply, Calm, TurnKept;
      LaterStateReflexive(st);
      NothingMoves(script, st);
      if script == [] {
        return NoFault;
      }
      var turn := script[0];
      NothingTurned(turn, st);
      for i := 0 to |turn.before|
        invariant Valid() && LaterState(old(st), st) && issued == old(issued) && written == old(written) && removed == old(removed) && script == old(script)
        invariant setbacks == old(setbacks) && st == Exec(old(st), turn.before[..i])
        invariant TurnKept(turn, old(st), st)
      {
        assert turn.before[..i + 1][..i] == turn.before[..i];
        TurnStep(turn, old(st), st, turn.before[i]);
        ActionKeeps(st, turn.before[i]);
        LaterStateTransitive(old(st), st, Apply(st, turn.before[i]));
        st := Apply(st, turn.before[i]);
      }
      assert turn.before[..|turn.before|] == turn.before;
      TurnIsCalm(script, old(st), st);
      script := script[1..];
      return turn.fault;
    }

    /** The instant a controller reads its clock. */
    method Now() returns (now: int)
      requires Valid()
      modifies this
      ensures Valid() && LaterState(old(st), st) && issued == old(issued) && written == old(written) && removed == old(removed) && now == st.clock
      ensures setbacks == old(setbacks) && st == Turned(old(st), old(script)) && script == Rest(old(script))
    {
      var _ := Interleave();
      return st.clock;
    }

    method GetRun(name: string) returns (r: Lookup<Run>)
      requires Valid()
      modifies this
      ensures Valid() && LaterState(old(st), st) && issued == old(issued) && written == old(written)
      ensures Calm(old(script), script, old(st), st)
      ensures r.Got? ==> name in st.runs && st.runs[name] == r.value && r.value in st.log && r.value.name == name
      ensures r.Missing? ==> name !in st.runs
      ensures old(setbacks) <= setbacks && (r.Unreachable? ==> old(setbacks) < setbacks)
    {
      var fault := Interleave();
      if fault != NoFault {
        setbacks := setbacks + 1;
        return Unreachable;
      }
      return if name in st.runs then Got(st.runs[name]) else Missing;
    }

    method ListRuns() returns (r: Lookup<set<Run>>)
      requires Valid()
      modifies this
      ensures Valid() && LaterState(old(st), st) && issued == old(issued) && written == old(written)
      ensures !r.Missing? && (r.Got? ==> r.value == st.runs.Values && r.value <= st.log)
      ensures old(setbacks) <= setbacks && (r.Unreachable? ==> old(setbacks) < setbacks)
    {
      var fault := Interleave();
      if fault != NoFault {
        setbacks := setbacks + 1;
        return Unreachable;
      }
      return Got(st.runs.Values);
    }

    /** A status patch locked to the version of base. */
    method PatchRun(base: Run, w: Write) returns (r: Reply<Run>)
      requires Valid() && base in st.log && Enabled(base, w)
      modifies this
      ensures Valid() && LaterState(old(st), st)
      ensures issued == old(issued) || issued == old(issued) + [Issued(base, w)]
      ensures written == old(written)
      ensures !w.Revise? ==> Calm(old(script), script, old(st), st)
      ensures r.Patched? ==> issued == old(issued) + [Issued(base, w)]
      ensures r.Conflict? ==> issued == old(issued)
      ensures issued != old(issued) ==>
                Stored(st, base.name, base.uid) && st.runs[base.name] in st.log &&
                st.runs[base.name] == Updated(base, w, st.clock).(version := st.runs[base.name].version)
      ensures r.Patched? ==>
                Stored(st, base.name, base.uid) && r.value == st.runs[base.name] && r.value in st.log &&
                r.value == Updated(base, w, st.clock).(version := r.value.version)
      ensures old(setbacks) <= setbacks && (!r.Patched? ==> old(setbacks) < setbacks)
    {
      hide Inv, LaterState, Apply, Enabled, Updated, Calm;
      var fault := Interleave();
      Remembered(old(st), st);
      if fault != NoFault || base.name !in st.runs || !Unchanged(st, base) {
        setbacks := setbacks + 1;
      }
      if fault == Unavailable || base.name !in st.runs {
        return PatchFailed;
      }
      if !Unchanged(st, base) {
        return Conflict;
      }
      ghost var before := st;
      PatchTakesEffect(st, base, w);
      if !w.Revise? {
        PatchIsCalm(script, st, base, w);
        CalmTransitive(old(script), script, script, old(st), st, Apply(st, Action.PatchRun(base, w)));
      }
      st := Apply(st, Action.PatchRun(base, w));
      issued := issued + [Issued(base, w)];
      LaterStateTransitive(old(st), before, st);
      return if fault == NoFault then Patched(st.runs[base.name]) else PatchFailed;
    }

    /** Deletes whatever run bears this name: no version or UID is compared. */
    method DeleteRun(name: string) returns (ok: bool)
      requires Valid()
      modifies this
      ensures Valid() && LaterState(old(st), st) && issued == old(issued) && written == old(written)
      ensures var m := Turned(old(st), old(script));
              && Inv(m) && LaterState(old(st), m) && LaterState(m, st)
              && ((st == m && removed == old(removed)) ||
                  (name in m.runs && st == Apply(m, Action.DeleteRun(name)) && removed == old(removed) + [m.runs[name]]))
      ensures script == Rest(old(script))
      ensures old(setbacks) <= setbacks && (name in st.runs ==> old(setbacks) < setbacks)
    {
      hide Inv, LaterState, Apply;
      var fault := Interleave();
      LaterStateReflexive(st);
      if fault != NoFault {
        setbacks := setbacks + 1;
      }
      if fault == Unavailable || name !in st.runs {
        return false;
      }
      ghost var before := st;
      StoredIsLogged(st, name);
      removed := removed + [st.runs[name]];
      ActionKeeps(st, Action.DeleteRun(name));
      DeletedIsGone(st, name);
      st := Apply(st, Action.DeleteRun(name));
      LaterStateTransitive(old(st), before, st);
      return fault == NoFault;
    }

    method GetConfig() returns (r: Lookup<Config>)
      requires Valid()
      modifies this
      ensures Valid() && LaterState(old(st), st) && issued == old(issued) && written == old(written)
      ensures r.Got? ==> st.config == Some(r.value) && r.value in st.configLog
      ensures r.Missing? ==> st.config.None?
      ensures old(setbacks) <= setbacks && (r.Unreachable? ==> old(setbacks) < setbacks)
    {
      var fault := Interleave();
      if fault != NoFault {
        setbacks := setbacks + 1;
        return Unreachable;
      }
      return if st.config.Some? then Got(st.config.value) else Missing;
    }

    /** A status patch locked to the version of base. A safe outcome must rest on a sound pass. */
    method PatchConfig(base: Config, w: ConfigWrite) returns (r: Reply<Config>)
      requires Valid() && base in st.configLog && ConfigEnabled(base, w)
      requires w.RecordOutcome? ==> w.pass.activation.uid != NO_UID && (w.evidence.Safe() ==> PassSound(st, w.pass))
      modifies this
      ensures Valid() && LaterState(old(st), st) && issued == old(issued)
      ensures written == old(written) || written == old(written) + [w]
      ensures r.Patched? ==> written == old(written) + [w]
      ensures r.Conflict? ==> written == old(written)
      ensures r.Patched? ==>
                st.config == Some(r.value) && r.value in st.configLog &&
                r.value == ConfigUpdated(base, w, st.clock).(version := r.value.version)
      ensures old(setbacks) <= setbacks && (!r.Patched? ==> old(setbacks) < setbacks)
    {
      hide Inv, LaterState, Apply, PassSound, ConfigEnabled, ConfigUpdated;
      var fault := Interleave();
      Remembered(old(st), st);
      if fault != NoFault || st.config.None? || !ConfigUnchanged(st, base) {
        setbacks := setbacks + 1;
      }
      if fault == Unavailable || st.config.None? {
        return PatchFailed;
      }
      if !ConfigUnchanged(st, base) {
        return Conflict;
      }
      ghost var before := st;
      if w.RecordOutcome? && w.evidence.Safe() {
        StillSound(old(st), st, w.pass);
      }
      ConfigPatchTakesEffect(st, base, w);
      st := Apply(st, Action.PatchConfig(base, w));
      written := written + [w];
      LaterStateTransitive(old(st), before, st);
      return if fault == NoFault then Patched(st.config.value) else PatchFailed;
    }

    /** Whether the stored configuration still represents the activation. */
    method RequireCurrentActivation(a: Activation) returns (verdict: Verdict)
      requires Valid()
      modifies this
      ensures Valid() && LaterState(old(st), st) && issued == old(issued) && written == old(written)
      ensures verdict == InForce ==> Represents(st, a)
      ensures verdict == Superseded ==> !Represents(st, a)
      ensures old(setbacks) <= setbacks && (verdict == Undecided ==> old(setbacks) < setbacks)
    {
      var config := GetConfig();
      match config
      case Unreachable => return Undecided;
      case Missing => return Superseded;
      case Got(c) => return if ActivationMatches(c, a) then InForce else Superseded;
    }
  }
}
