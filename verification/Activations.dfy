/** What the configuration's status promises, over every history of requests. */
module Activations {
  import opened Conditions
  import opened Runs
  import opened RunWrites
  import opened Configs
  import opened Machine
  import opened KillSwitch
  import opened Vocabulary
  import Objects

  /** The run was listed and has accepted a stop, unless it was listed as ended and recorded so
      before the activation; a copy of it no older than the one listed showed nothing remote. */
  ghost predicate Protected(t: State, n: string, p: Pass)
    requires n in t.runs
  {
    exists r :: r in p.listed && r.name == n && r.uid == t.runs[n].uid &&
                (EndedBefore(r, p.activation.start) || StopTaken(t.runs[n].conditions)) &&
                exists e :: e in p.examined && e.uid == r.uid && r.version <= e.version && NothingRemote(e)
  }

  /** Every run that had been stored by the time the pass listed its runs, and is still
      stored, is protected. */
  ghost predicate OldRunsProtected(t: State, p: Pass) {
    forall n, r :: n in t.runs && r in t.log && r.uid == t.runs[n].uid && r.version < p.asOf ==> Protected(t, n, p)
  }

  lemma SoundPassProtects(t: State, p: Pass)
    requires RunsInv(t) && PassSound(t, p)
    ensures OldRunsProtected(t, p)
  {
    hide Affected, RemoteEvidence, HasAcceptedStop, History, VersionsUnique, Objects.Live, EndedBefore, StopTaken, NothingRemote,
      RunWellFormed;
    forall n, r | n in t.runs && r in t.log && r.uid == t.runs[n].uid && r.version < p.asOf
      ensures Protected(t, n, p)
    {
      var l :| l in p.listed && l.name == n && l.uid == r.uid;
      assert Stored(t, l.name, l.uid);
      var e :| e in p.examined && e.uid == l.uid && l.version <= e.version;
      AffectedMeans(l, p.activation.start);
      AcceptedMeans(t.runs[n]);
      RemoteMeans(e);
    }
  }

  /** SafeToResume=True for the generation in force was written by a pass of exactly the
      activation in force, which listed its runs after that activation had been accepted. Its
      second inventory held nothing live. Every run stored by the time of the listing is, in
      this and every later state, gone or protected, whatever happens to the configuration. */
  lemma SafeToResumeIsSound(s: State, after: seq<Action>)
    requires Reachable(s) && s.config.Some? && SafeNow(s.config.value)
    ensures s.config.value.basis.Some?
    ensures var c, p := s.config.value, s.config.value.basis.value;
            && Suspended in c.conditions
            && p.activation == Activation(c.uid, c.generation, c.conditions[Suspended].lastTransition)
            && ActivationMatches(c, p.activation)
            && AcceptedBefore(s, p.activation, p.asOf)
            && (forall o :: o in p.inventory ==> !Objects.Live(o, ""))
            && OldRunsProtected(s, p) && OldRunsProtected(Exec(s, after), p)
  {
    ReachableInv(s);
    ExecKeeps(s, after);
    assert ConfigWellFormed(s.config.value);
    SoundForGood(s, after);
  }

  lemma SoundForGood(s: State, after: seq<Action>)
    requires Inv(s) && s.config.Some? && SafeNow(s.config.value)
    ensures s.config.value.basis.Some?
    ensures var p := s.config.value.basis.value;
            PassSound(s, p) && OldRunsProtected(s, p) && OldRunsProtected(Exec(s, after), p)
  {
    hide OldRunsProtected, PassSound, LaterState, RunsInv, ConfigInv;
    var p := s.config.value.basis.value;
    ExecKeeps(s, after);
    PassStaysSound(s, Exec(s, after), p);
    SoundPassProtects(s, p);
    SoundPassProtects(Exec(s, after), p);
  }

  /** The admission policy's two rules: a suspended configuration may be switched off, or
      deleted, only when its status allows the resume. */
  predicate Admitted(c: Config, a: Action) {
    && (a.SwitchConfig? ==> !c.suspended || a.suspended || AdmissionAllowsResume(c))
    && (a.DeleteConfig? ==> !c.suspended || AdmissionAllowsResume(c))
  }

  /** An admitted end of a suspension, by switch or by deletion, finds the protection of old
      runs in place, and it stays in place. */
  lemma AdmittedResumeIsSafe(s: State, a: Action, after: seq<Action>)
    requires Reachable(s) && s.config.Some? && s.config.value.suspended && Admitted(s.config.value, a)
    requires a == SwitchConfig(false) || a == DeleteConfig
    ensures SafeNow(s.config.value) && s.config.value.basis.Some?
    ensures OldRunsProtected(Apply(s, a), s.config.value.basis.value)
    ensures OldRunsProtected(Exec(s, [a] + after), s.config.value.basis.value)
  {
    hide OldRunsProtected, PassSound, LaterState, Exec, Apply;
    ReachableInv(s);
    SoundForGood(s, [a]);
    SoundForGood(s, [a] + after);
    ExecOne(s, a);
  }

  lemma ExecOne(s: State, a: Action)
    ensures Exec(s, [a]) == Apply(s, a)
  {
    assert [a][..0] == [];
  }

  lemma ConfigHistory(s: State, after: seq<Action>)
    requires Inv(s) && s.config.Some? && Exec(s, after).config.Some?
    requires Exec(s, after).config.value.uid == s.config.value.uid
    ensures LaterConfig(s.config.value, Exec(s, after).config.value)
  {
    ExecKeeps(s, after);
    var t := Exec(s, after);
    assert s.config.value in t.configLog;
  }

  /** Within one object and one generation there is only ever one activation start. */
  lemma ActivationStartIsStable(s: State, after: seq<Action>)
    requires Reachable(s)
    requires s.config.Some? && Exec(s, after).config.Some?
    requires var c, d := s.config.value, Exec(s, after).config.value;
             d.uid == c.uid && d.generation == c.generation && CurrentActivation(c)
    ensures var c, d := s.config.value, Exec(s, after).config.value;
            CurrentActivation(d) && d.conditions[Suspended].lastTransition == c.conditions[Suspended].lastTransition
  {
    ReachableInv(s);
    ConfigHistory(s, after);
  }

  /** Two successful matches of one activation bracket an interval in which the same object
      stayed in place and suspended throughout: no resume slipped in between. */
  lemma MatchesBracketSuspension(s: State, first: seq<Action>, second: seq<Action>, a: Activation)
    requires Reachable(s) && a.uid != NO_UID
    requires s.config.Some? && ActivationMatches(s.config.value, a)
    requires Exec(s, first + second).config.Some? && ActivationMatches(Exec(s, first + second).config.value, a)
    ensures var m := Exec(s, first).config;
            && m.Some? && m.value.uid == a.uid && m.value.generation == a.generation
            && m.value.suspended && ActivationMatches(m.value, a)
  {
    ReachableInv(s);
    ExecKeeps(s, first);
    ExecSplits(s, first, second);
    var m := Exec(s, first);
    ExecKeeps(m, second);
    assert s.config.value.uid in m.usedUids;
    ConfigHistory(s, first);
    ConfigHistory(m, second);
  }

  /** The observed switch is the requested one; a clean outcome is a safe one. */
  lemma StatusIsHonest(s: State)
    requires Reachable(s) && s.config.Some? && ObservedNow(s.config.value, Suspended)
    ensures var c := s.config.value;
            && (c.conditions[Suspended].status == True <==> c.suspended)
            && (c.conditions[Suspended].status == False <==> !c.suspended)
            && (c.suspended && c.conditions[Suspended].reason == AdminActivated ==>
                  SafeNow(c) && FormatResumeSafety(c.generation, Lookup(c, Suspended), Lookup(c, SafeToResume)) == ResumeConfirmed)
  {
    ReachableInv(s);
    assert ConfigWellFormed(s.config.value);
  }

  /** An outcome with errors is final for its generation. */
  lemma ErrorsAreSticky(s: State, after: seq<Action>)
    requires Reachable(s) && s.config.Some? && Exec(s, after).config.Some?
    requires var c, d := s.config.value, Exec(s, after).config.value;
             d.uid == c.uid && d.generation == c.generation &&
             ObservedNow(c, Suspended) && c.conditions[Suspended].reason == AdminActivatedWithErrors
    ensures var d := Exec(s, after).config.value;
            ObservedNow(d, Suspended) && d.conditions[Suspended].reason == AdminActivatedWithErrors
  {
    ReachableInv(s);
    ConfigHistory(s, after);
  }

  /** From a fresh configuration on, an accepted activation always has its safety condition: it
      is never the missing condition alone that has to be supplied. */
  lemma SafetyConditionIsNeverMissing(s: State)
    requires Reachable(s) && s.config.Some? && s.config.value.suspended && CurrentActivation(s.config.value)
    ensures !NeedsSafetyCondition(s.config.value) && !ConfigEnabled(s.config.value, RefreshSafety)
  {
    ReachableInv(s);
    assert ConfigWellFormed(s.config.value);
  }
}
