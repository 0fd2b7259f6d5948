/** The API server as every controller, administrator and timer sees it. Each action is
    one atomic request. A controller may act on any copy of a run or of the configuration
    that was ever stored, however stale; its status patch takes effect only while the
    stored version is still the one it read. */
module Machine {
  import opened Conditions
  import opened Runs
  import opened RunWrites
  import opened Configs
  import opened Vocabulary
  import Objects

  datatype State = State(
    runs: map<string, Run>,
    log: set<Run>,
    refreshed: set<Run>,
    config: Option<Config>,
    configLog: set<Config>,
    usedUids: set<Uid>,
    nextVersion: nat,
    clock: int)

  datatype Action =
    // users and external controllers
    | CreateRun(newName: string, newUid: Uid, spec: Spec, annotated: string, preserved: bool)
    | DeleteRun(name: string)
    | EditSpec(name: string, revisionFeedback: string, terminalTtl: Option<int>)
    | EditMeta(name: string, rbacNamespaces: string, preserve: bool)
    | CreateConfig(configUid: Uid, initially: bool)
    | DeleteConfig
    | SwitchConfig(suspended: bool)
    | Tick(elapsed: nat)
    // optimistically locked writes
    | PatchRun(base: Run, w: Write)
    | PatchConfig(configBase: Config, cw: ConfigWrite)
    // a revision of a run carrying the retention label: an unlocked label patch, by name,
    // whose response replaces the controller's copy, then a locked status patch of that copy
    | ClearTtlLabel(base: Run)
    | ReviseRefreshed(base: Run)

  /** Timestamps are never zero. */
  const INITIAL := State(map[], {}, {}, None, {}, {}, 0, SECOND)

  predicate Stored(s: State, name: string, uid: Uid) {
    name in s.runs && s.runs[name].uid == uid
  }

  function StoreRun(s: State, r: Run): State {
    var stamped := r.(version := s.nextVersion);
    s.(runs := s.runs[r.name := stamped], log := s.log + {stamped}, nextVersion := s.nextVersion + 1)
  }

  function StoreConfig(s: State, c: Config): State {
    var stamped := c.(version := s.nextVersion);
    s.(config := Some(stamped), configLog := s.configLog + {stamped}, nextVersion := s.nextVersion + 1)
  }

  function NewRun(name: string, uid: Uid, spec: Spec, annotated: string, preserved: bool): Run {
    Run(name, uid, 0, 1, "", annotated, preserved, spec, map[], FRESH_STAGES, NO_TOKENS, None, None)
  }

  /** The lock of a status patch. */
  predicate Unchanged(s: State, base: Run) {
    base.name in s.runs && s.runs[base.name].version == base.version
  }

  predicate ConfigUnchanged(s: State, base: Config) {
    s.config.Some? && s.config.value.version == base.version
  }

  /** Some judged copy of this run, no older than the one listed. */
  predicate WasJudged(r: Run, examined: set<Run>) {
    exists e :: e in examined && e.uid == r.uid && r.version <= e.version
  }

  /** Every affected run the pass listed has durably accepted a stop or is gone, each that is
      not gone was judged as listed or later, no run it judged showed remote execution, and its
      second inventory held nothing live. */
  predicate FindingsSound(s: State, p: Pass) {
    && p.listed <= s.log && p.examined <= s.log
    && (forall r :: r in p.listed && Affected(r, p.activation.start) && Stored(s, r.name, r.uid) ==>
          HasAcceptedStop(s.runs[r.name].conditions))
    && (forall r :: r in p.listed && Stored(s, r.name, r.uid) ==> WasJudged(r, p.examined))
    && (forall e :: e in p.examined ==> !RemoteEvidence(e))
    && (forall o :: o in p.inventory ==> !Objects.Live(o, ""))
  }

  /** Some version of the configuration that represents the activation is older than version. */
  predicate AcceptedBefore(s: State, a: Activation, version: nat) {
    exists c :: c in s.configLog && ActivationMatches(c, a) && c.version < version
  }

  /** This run, under this UID, is in the inventory. */
  predicate WasListed(name: string, uid: Uid, listed: set<Run>) {
    exists r :: r in listed && r.name == name && r.uid == uid
  }

  /** The pass listed its runs after its activation had been accepted, and every run stored by
      then that is still stored is among them. */
  predicate ListedAll(s: State, p: Pass) {
    && p.asOf <= s.nextVersion && AcceptedBefore(s, p.activation, p.asOf)
    && (forall n, r :: n in s.runs && r in s.log && r.uid == s.runs[n].uid && r.version < p.asOf ==> WasListed(n, r.uid, p.listed))
  }

  predicate PassSound(s: State, p: Pass) {
    FindingsSound(s, p) && ListedAll(s, p)
  }

  predicate CanPatchConfig(s: State, base: Config, w: ConfigWrite) {
    && base in s.configLog && ConfigEnabled(base, w) && ConfigUnchanged(s, base)
    && (w.RecordOutcome? ==> w.pass.activation.uid != NO_UID && (w.evidence.Safe() ==> PassSound(s, w.pass)))
  }

  function Apply(s: State, a: Action): State {
    match a
    case CreateRun(name, uid, spec, annotated, preserved) =>
      if name in s.runs || uid in s.usedUids || uid == NO_UID then s
      else StoreRun(s.(usedUids := s.usedUids + {uid}), NewRun(name, uid, spec, annotated, preserved))
    case DeleteRun(name) => s.(runs := s.runs - {name})
    case EditSpec(name, feedback, ttl) =>
      if name !in s.runs then s
      else
        var r := s.runs[name];
        StoreRun(s, r.(spec := r.spec.(revisionFeedback := feedback, terminalTtl := ttl), generation := r.generation + 1))
    case EditMeta(name, rbacNamespaces, preserve) =>
      if name !in s.runs then s
      else StoreRun(s, s.runs[name].(rbacNamespaces := rbacNamespaces, preserve := preserve))
    case CreateConfig(uid, initially) =>
      if s.config.Some? || uid in s.usedUids || uid == NO_UID then s
      else StoreConfig(s.(usedUids := s.usedUids + {uid}), Config(uid, 0, 1, initially, map[], None))
    case DeleteConfig => s.(config := None)
    case SwitchConfig(suspended) =>
      if s.config.None? || s.config.value.suspended == suspended then s
      else StoreConfig(s, s.config.value.(suspended := suspended, generation := s.config.value.generation + 1))
    case Tick(elapsed) => s.(clock := s.clock + elapsed)
    case PatchRun(base, w) =>
      if base in s.log && Enabled(base, w) && Unchanged(s, base) then StoreRun(s, Updated(base, w, s.clock)) else s
    case PatchConfig(base, w) =>
      if CanPatchConfig(s, base, w) then StoreConfig(s, ConfigUpdated(base, w, s.clock)) else s
    case ClearTtlLabel(base) =>
      if base in s.log && !HasAcceptedStop(base.conditions) && RevisionRouted(base) && base.ttlLabel != "" &&
         base.name in s.runs then
        var current := s.runs[base.name];
        if current.ttlLabel == "" then s.(refreshed := s.refreshed + {current})
        else
          var cleared := StoreRun(s, current.(ttlLabel := ""));
          cleared.(refreshed := s.refreshed + {cleared.runs[base.name]})
      else s
    case ReviseRefreshed(base) =>
      if base in s.refreshed && Unchanged(s, base) then StoreRun(s, Revised(base, s.clock)) else s
  }

  function Exec(s: State, actions: seq<Action>): State
    decreases |actions|
  {
    if actions == [] then s else Apply(Exec(s, actions[..|actions| - 1]), actions[|actions| - 1])
  }

  // ---------------------------------------------------------------------------
  // Invariants
  // ---------------------------------------------------------------------------

  ghost predicate RunsInv(s: State) {
    && (forall n :: n in s.runs ==> s.runs[n] in s.log && s.runs[n].name == n)
    && (forall r :: r in s.log ==> r.version < s.nextVersion && r.uid in s.usedUids && r.uid != NO_UID && RunWellFormed(r))
    && s.refreshed <= s.log
    && VersionsUnique(s.log)
    && History(s.log)
    && (forall n, a :: n in s.runs && a in s.log && a.uid == s.runs[n].uid ==> a.version <= s.runs[n].version)
  }

  ghost predicate VersionsUnique(log: set<Run>) {
    forall a, b :: a in log && b in log && a.version == b.version ==> a == b
  }

  /** Of any two stored versions of one run, the later one keeps what the earlier one fixed. */
  ghost predicate History(log: set<Run>) {
    forall a, b {:trigger Later(a, b)} :: a in log && b in log && a.uid == b.uid && a.version <= b.version ==> Later(a, b)
  }

  ghost predicate ConfigInv(s: State) {
    && (s.config.Some? ==> s.config.value in s.configLog)
    && (forall c :: c in s.configLog ==>
          c.version < s.nextVersion && c.uid in s.usedUids && c.uid != NO_UID && ConfigWellFormed(c))
    && (forall a, b :: a in s.configLog && b in s.configLog && a.version == b.version ==> a == b)
    && (forall a, b :: a in s.configLog && b in s.configLog && a.uid == b.uid && a.version <= b.version ==> LaterConfig(a, b))
    && (forall a :: s.config.Some? && a in s.configLog && a.uid == s.config.value.uid ==> a.version <= s.config.value.version)
  }

  /** Whenever SafeToResume=True is stored for the generation in force, it rests on a pass of
      exactly the activation in force, and what that pass established still holds. */
  ghost predicate SafetyInv(s: State) {
    s.config.Some? && SafeNow(s.config.value) ==>
      && s.config.value.basis.Some?
      && ActivationMatches(s.config.value, s.config.value.basis.value.activation)
      && s.config.value.basis.value.activation.uid == s.config.value.uid
      && PassSound(s, s.config.value.basis.value)
  }

  ghost predicate Inv(s: State) {
    RunsInv(s) && ConfigInv(s) && SafetyInv(s) && s.clock >= SECOND
  }

  /** What later states keep of earlier ones: nothing observed is forgotten, and neither a
      deleted run nor a deleted configuration comes back under its old UID. */
  ghost predicate LaterState(s: State, t: State) {
    && s.log <= t.log && s.configLog <= t.configLog && s.usedUids <= t.usedUids
    && s.nextVersion <= t.nextVersion && s.clock <= t.clock
    && (forall r :: r in t.log && r.version < s.nextVersion ==> r in s.log)
    && (forall n, u :: u in s.usedUids && Stored(t, n, u) ==> Stored(s, n, u))
    && (t.config.Some? && t.config.value.uid in s.usedUids ==>
          s.config.Some? && s.config.value.uid == t.config.value.uid)
  }

  /** Some version of this run stored so far bears a stop pending since start. */
  ghost predicate MarkedFrom(s: State, uid: Uid, start: int) {
    exists c :: c in s.log && c.uid == uid && StopBegunAt(c.conditions, start)
  }

  lemma LaterStateReflexive(s: State)
    ensures LaterState(s, s)
  {
  }

  lemma LaterStateTransitive(s: State, t: State, u: State)
    requires LaterState(s, t) && LaterState(t, u)
    ensures LaterState(s, u)
  {
  }

  /** A run observed earlier and still stored now is a later version of what was observed. */
  lemma ObservedEarlier(s: State, r: Run)
    requires RunsInv(s) && r in s.log && Stored(s, r.name, r.uid)
    ensures Later(r, s.runs[r.name])
  {
    assert s.runs[r.name] in s.log;
  }

  lemma StillAccepted(r: Run, later: Run)
    requires RunWellFormed(r) && RunWellFormed(later) && Later(r, later)
    ensures HasAcceptedStop(r.conditions) ==> HasAcceptedStop(later.conditions)
    ensures HasFinalStopOutcome(r.conditions) ==> HasFinalStopOutcome(later.conditions)
  {
    MarkerDecides(r.conditions);
    MarkerDecides(later.conditions);
  }

  lemma FindingsStaySound(s: State, t: State, p: Pass)
    requires RunsInv(s) && RunsInv(t) && LaterState(s, t) && FindingsSound(s, p)
    ensures FindingsSound(t, p)
  {
    hide WasJudged, Affected, RemoteEvidence, Objects.Live, HasAcceptedStop, History, VersionsUnique, RunWellFormed, Later;
    forall r | r in p.listed && Stored(t, r.name, r.uid)
      ensures Affected(r, p.activation.start) ==> HasAcceptedStop(t.runs[r.name].conditions)
      ensures WasJudged(r, p.examined)
    {
      assert Stored(s, r.name, r.uid);
      var before := s.runs[r.name];
      assert before in t.log;
      ObservedEarlier(t, before);
      StillAccepted(before, t.runs[r.name]);
    }
  }

  lemma ListedAllStays(s: State, t: State, p: Pass)
    requires RunsInv(s) && LaterState(s, t) && ListedAll(s, p)
    ensures ListedAll(t, p)
  {
    hide WasListed, ActivationMatches, History, VersionsUnique, RunWellFormed;
    forall n, r | n in t.runs && r in t.log && r.uid == t.runs[n].uid && r.version < p.asOf
      ensures WasListed(n, r.uid, p.listed)
    {
      assert r in s.log;
      assert Stored(t, n, r.uid);
      assert Stored(s, n, r.uid);
    }
  }

  /** A sound pass stays sound. */
  lemma PassStaysSound(s: State, t: State, p: Pass)
    requires RunsInv(s) && RunsInv(t) && LaterState(s, t) && PassSound(s, p)
    ensures PassSound(t, p)
  {
    FindingsStaySound(s, t, p);
    ListedAllStays(s, t, p);
  }

  /** A listing of everything stored, taken after the acceptance, is complete ever after. */
  lemma ListingIsComplete(at: State, s: State, p: Pass)
    requires RunsInv(at) && LaterState(at, s) && p.listed == at.runs.Values && p.asOf == at.nextVersion
    requires AcceptedBefore(at, p.activation, p.asOf)
    ensures ListedAll(s, p)
  {
    hide ActivationMatches, History, VersionsUnique, RunWellFormed;
    forall n, r | n in at.runs && r in at.log && r.uid == at.runs[n].uid && r.version < p.asOf
      ensures WasListed(n, r.uid, p.listed)
    {
      assert at.runs[n] in p.listed;
    }
    ListedAllStays(at, s, p);
  }

  // ---------------------------------------------------------------------------
  // Preservation
  // ---------------------------------------------------------------------------

  lemma StoringKeepsHistory(s: State, r: Run)
    requires RunsInv(s) && Stored(s, r.name, r.uid) && Later(s.runs[r.name], r)
    ensures History(StoreRun(s, r).log)
  {
    var stamped := r.(version := s.nextVersion);
    var log := s.log + {stamped};
    forall a, b | a in log && b in log && a.uid == b.uid && a.version <= b.version
      ensures Later(a, b)
    {
      if b == stamped && a != stamped {
        assert Later(a, s.runs[r.name]);
        LaterTransitive(a, s.runs[r.name], r);
        LaterIgnoresVersion(a, r, s.nextVersion);
      } else if b == stamped {
        LaterReflexive(b);
      } else {
        assert a in s.log && b in s.log;
      }
    }
  }

  lemma LaterIgnoresVersion(a: Run, r: Run, v: nat)
    requires Later(a, r)
    ensures Later(a, r.(version := v))
  {
  }

  lemma StoringRunKeeps(s: State, r: Run)
    requires RunsInv(s) && RunWellFormed(r)
    requires Stored(s, r.name, r.uid) && Later(s.runs[r.name], r)
    ensures RunsInv(StoreRun(s, r)) && LaterState(s, StoreRun(s, r))
  {
    StoringKeepsHistory(s, r);
    assert RunWellFormed(r.(version := s.nextVersion));
  }

  lemma LaterReflexive(r: Run)
    ensures Later(r, r)
  {
  }

  lemma NewRunIsWellFormed(name: string, uid: Uid, spec: Spec, annotated: string, preserved: bool, version: nat)
    ensures var r := NewRun(name, uid, spec, annotated, preserved);
            RunWellFormed(r.(version := version)) && r.name == name && r.uid == uid
  {
  }

  lemma NewRunHasNoHistory(s: State, r: Run)
    requires RunsInv(s) && r.uid !in s.usedUids && r.version == s.nextVersion
    ensures History(s.log + {r}) && VersionsUnique(s.log + {r})
  {
    hide Later;
    LaterReflexive(r);
  }

  lemma CreatingRunKeeps(s: State, name: string, uid: Uid, spec: Spec, annotated: string, preserved: bool)
    requires RunsInv(s) && name !in s.runs && uid !in s.usedUids && uid != NO_UID
    ensures var t := Apply(s, CreateRun(name, uid, spec, annotated, preserved));
            RunsInv(t) && LaterState(s, t)
  {
    hide HasAcceptedStop, RevisionRouted, Enabled, Updated, CanPatchConfig, Later, RunWellFormed, History, VersionsUnique, NewRun;
    var r := NewRun(name, uid, spec, annotated, preserved).(version := s.nextVersion);
    NewRunIsWellFormed(name, uid, spec, annotated, preserved, s.nextVersion);
    NewRunHasNoHistory(s, r);
  }

  lemma StoringConfigKeeps(s: State, c: Config)
    requires ConfigInv(s) && ConfigWellFormed(c)
    requires s.config.Some? && LaterConfig(s.config.value, c)
    ensures ConfigInv(StoreConfig(s, c)) && LaterState(s, StoreConfig(s, c))
  {
    var stamped := StoreConfig(s, c).config.value;
    forall a | a in s.configLog && a.uid == stamped.uid
      ensures LaterConfig(a, stamped)
    {
      LaterConfigTransitive(a, s.config.value, c);
    }
  }

  /** The stored run is the copy whose lock holds. */
  lemma UnchangedIsStored(s: State, base: Run)
    requires RunsInv(s) && base in s.log && Unchanged(s, base)
    ensures s.runs[base.name] == base
  {
  }

  lemma PatchRunKeeps(s: State, base: Run, w: Write)
    requires RunsInv(s)
    ensures RunsInv(Apply(s, PatchRun(base, w))) && LaterState(s, Apply(s, PatchRun(base, w)))
  {
    if base in s.log && Enabled(base, w) && Unchanged(s, base) {
      UnchangedIsStored(s, base);
      WriteKeeps(base, w, s.clock);
      StoringRunKeeps(s, Updated(base, w, s.clock));
    }
  }

  lemma EditSpecKeeps(s: State, name: string, feedback: string, ttl: Option<int>)
    requires RunsInv(s)
    ensures RunsInv(Apply(s, EditSpec(name, feedback, ttl))) && LaterState(s, Apply(s, EditSpec(name, feedback, ttl)))
  {
    if name in s.runs {
      var r := s.runs[name];
      StoringRunKeeps(s, r.(spec := r.spec.(revisionFeedback := feedback, terminalTtl := ttl), generation := r.generation + 1));
    }
  }

  lemma EditMetaKeeps(s: State, name: string, rbacNamespaces: string, preserve: bool)
    requires RunsInv(s)
    ensures RunsInv(Apply(s, EditMeta(name, rbacNamespaces, preserve)))
    ensures LaterState(s, Apply(s, EditMeta(name, rbacNamespaces, preserve)))
  {
    if name in s.runs {
      StoringRunKeeps(s, s.runs[name].(rbacNamespaces := rbacNamespaces, preserve := preserve));
    }
  }

  lemma UnlabelledIsLater(r: Run)
    requires RunWellFormed(r)
    ensures RunWellFormed(r.(ttlLabel := "")) && Later(r, r.(ttlLabel := ""))
  {
  }

  lemma RefreshingKeeps(s: State, r: Run)
    requires RunsInv(s) && r in s.log
    ensures RunsInv(s.(refreshed := s.refreshed + {r})) && LaterState(s, s.(refreshed := s.refreshed + {r}))
  {
    hide RunWellFormed, History, VersionsUnique;
  }

  lemma ClearTtlLabelKeeps(s: State, base: Run)
    requires RunsInv(s)
    ensures RunsInv(Apply(s, ClearTtlLabel(base))) && LaterState(s, Apply(s, ClearTtlLabel(base)))
  {
    hide HasAcceptedStop, RevisionRouted, RunsInv, RunWellFormed, Later, LaterState;
    LaterStateReflexive(s);
    if base.name in s.runs {
      StoredIsWellFormed(s, base.name);
      var current := s.runs[base.name];
      RefreshingKeeps(s, current);
      UnlabelledIsLater(current);
      StoringRunKeeps(s, current.(ttlLabel := ""));
      var cleared := StoreRun(s, current.(ttlLabel := ""));
      RefreshingKeeps(cleared, cleared.runs[base.name]);
      LaterStateTransitive(s, cleared, cleared.(refreshed := cleared.refreshed + {cleared.runs[base.name]}));
    }
  }

  lemma StoredIsWellFormed(s: State, name: string)
    requires RunsInv(s) && name in s.runs
    ensures s.runs[name] in s.log && s.runs[name].name == name && RunWellFormed(s.runs[name])
  {
  }

  lemma ReviseRefreshedKeeps(s: State, base: Run)
    requires RunsInv(s)
    ensures RunsInv(Apply(s, ReviseRefreshed(base))) && LaterState(s, Apply(s, ReviseRefreshed(base)))
  {
    if base in s.refreshed && Unchanged(s, base) {
      UnchangedIsStored(s, base);
      RevisionKeeps(base, s.clock);
      StoringRunKeeps(s, Revised(base, s.clock));
    }
  }

  predicate OnConfig(a: Action) {
    a.CreateConfig? || a.DeleteConfig? || a.SwitchConfig? || a.PatchConfig?
  }

  lemma ConfigActionKeepsRuns(s: State, a: Action)
    requires RunsInv(s) && OnConfig(a)
    ensures RunsInv(Apply(s, a))
  {
  }

  lemma SwitchedIsWellFormed(c: Config, suspended: bool)
    requires ConfigWellFormed(c)
    ensures var d := c.(suspended := suspended, generation := c.generation + 1);
            ConfigWellFormed(d) && LaterConfig(c, d)
  {
  }

  lemma SwitchConfigKeeps(s: State, suspended: bool)
    requires ConfigInv(s)
    ensures ConfigInv(Apply(s, SwitchConfig(suspended))) && LaterState(s, Apply(s, SwitchConfig(suspended)))
  {
    hide LaterConfig;
    if s.config.Some? && s.config.value.suspended != suspended {
      var c := s.config.value.(suspended := suspended, generation := s.config.value.generation + 1);
      SwitchedIsWellFormed(s.config.value, suspended);
      StoringConfigKeeps(s, c);
    }
  }

  lemma PatchConfigKeeps(s: State, base: Config, w: ConfigWrite)
    requires ConfigInv(s) && s.clock >= SECOND
    ensures ConfigInv(Apply(s, PatchConfig(base, w))) && LaterState(s, Apply(s, PatchConfig(base, w)))
  {
    if CanPatchConfig(s, base, w) {
      assert s.config.value == base;
      ConfigWriteKeeps(base, w, s.clock);
      StoringConfigKeeps(s, ConfigUpdated(base, w, s.clock));
    }
  }

  lemma ConfigActionKeepsConfig(s: State, a: Action)
    requires ConfigInv(s) && s.clock >= SECOND && OnConfig(a)
    ensures ConfigInv(Apply(s, a)) && LaterState(s, Apply(s, a))
  {
    hide Enabled, Updated, HasAcceptedStop, RevisionRouted, CanPatchConfig, ConfigUpdated, Revised, ConfigWellFormed, LaterConfig;
    match a
    case SwitchConfig(suspended) => SwitchConfigKeeps(s, suspended);
    case PatchConfig(base, w) => PatchConfigKeeps(s, base, w);
    case CreateConfig(uid, initially) => CreateConfigKeeps(s, uid, initially);
    case DeleteConfig =>
  }

  lemma CreateConfigKeeps(s: State, uid: Uid, initially: bool)
    requires ConfigInv(s)
    ensures ConfigInv(Apply(s, CreateConfig(uid, initially))) && LaterState(s, Apply(s, CreateConfig(uid, initially)))
  {
    hide Enabled, Updated, HasAcceptedStop, RevisionRouted, CanPatchConfig, ConfigUpdated, Revised;
  }

  lemma RunActionKeeps(s: State, a: Action)
    requires RunsInv(s) && !OnConfig(a)
    ensures RunsInv(Apply(s, a)) && LaterState(s, Apply(s, a))
  {
    match a
    case CreateRun(name, uid, spec, annotated, preserved) =>
      if name !in s.runs && uid !in s.usedUids && uid != NO_UID {
        CreatingRunKeeps(s, name, uid, spec, annotated, preserved);
      }
    case EditSpec(name, feedback, ttl) => EditSpecKeeps(s, name, feedback, ttl);
    case EditMeta(name, rbacNamespaces, preserve) => EditMetaKeeps(s, name, rbacNamespaces, preserve);
    case PatchRun(base, w) => PatchRunKeeps(s, base, w);
    case ClearTtlLabel(base) => ClearTtlLabelKeeps(s, base);
    case ReviseRefreshed(base) => ReviseRefreshedKeeps(s, base);
    case DeleteRun(_) =>
    case Tick(_) =>
  }

  lemma RunActionKeepsConfig(s: State, a: Action)
    requires ConfigInv(s) && !OnConfig(a)
    ensures ConfigInv(Apply(s, a)) && Apply(s, a).config == s.config
  {
  }

  /** A pass recorded in the stored configuration was sound when it was written. */
  lemma SafetyIsKept(s: State, a: Action)
    requires Inv(s) && RunsInv(Apply(s, a)) && ConfigInv(Apply(s, a)) && LaterState(s, Apply(s, a))
    ensures SafetyInv(Apply(s, a))
  {
    hide Enabled, Updated, RunWellFormed, HasAcceptedStop, RevisionRouted, History, VersionsUnique;
    var t := Apply(s, a);
    if t.config.Some? && SafeNow(t.config.value) {
      if a.PatchConfig? && CanPatchConfig(s, a.configBase, a.cw) {
        var pass := t.config.value.basis.value;
        assert ConfigWellFormed(t.config.value);
        if a.cw.RecordOutcome? {
          PassStaysSound(s, t, pass);
        }
      } else if t.config == s.config {
        PassStaysSound(s, t, t.config.value.basis.value);
      }
    }
  }

  /** Every request, by whomever and on however stale a copy, keeps the invariant. */
  lemma ActionKeeps(s: State, a: Action)
    requires Inv(s)
    ensures Inv(Apply(s, a)) && LaterState(s, Apply(s, a))
  {
    if OnConfig(a) {
      ConfigActionKeepsRuns(s, a);
      ConfigActionKeepsConfig(s, a);
    } else {
      RunActionKeeps(s, a);
      RunActionKeepsConfig(s, a);
    }
    SafetyIsKept(s, a);
  }

  /** ... and so does every finite history of requests. */
  lemma {:induction false} ExecKeeps(s: State, actions: seq<Action>)
    requires Inv(s)
    ensures Inv(Exec(s, actions)) && LaterState(s, Exec(s, actions))
    decreases |actions|
  {
    if actions == [] {
    } else {
      var before := actions[..|actions| - 1];
      ExecKeeps(s, before);
      ActionKeeps(Exec(s, before), actions[|actions| - 1]);
      LaterStateTransitive(s, Exec(s, before), Exec(s, actions));
    }
  }

  lemma {:induction false} ExecSplits(s: State, first: seq<Action>, second: seq<Action>)
    ensures Exec(s, first + second) == Exec(Exec(s, first), second)
    decreases |second|
  {
    if second == [] {
      assert first + second == first;
    } else {
      var all := first + second;
      assert all[..|all| - 1] == first + second[..|second| - 1];
      ExecSplits(s, first, second[..|second| - 1]);
    }
  }

  lemma InitialInv()
    ensures Inv(INITIAL)
  {
  }

  // ---------------------------------------------------------------------------
  // Retention deadlines
  // ---------------------------------------------------------------------------

  /** The write half of a revision, in either form. */
  predicate IsRevision(a: Action, uid: Uid) {
    (a.PatchRun? && a.w.Revise? && a.base.uid == uid) || (a.ReviseRefreshed? && a.base.uid == uid)
  }

  /** The retention deadline of this run, once stamped, stands. */
  ghost predicate DeadlineKept(s: State, t: State, uid: Uid) {
    forall n :: Stored(s, n, uid) && Stored(t, n, uid) && s.runs[n].terminalTime.Some? ==>
      t.runs[n].terminalTime == s.runs[n].terminalTime && t.runs[n].deleteAfter == s.runs[n].deleteAfter
  }

  lemma WriteMovesDeadline(r: Run, w: Write, now: int)
    requires Enabled(r, w)
    ensures var after := Updated(r, w, now);
            || (after.terminalTime == r.terminalTime && after.deleteAfter == r.deleteAfter && !w.StampTerminal?)
            || (w.Revise? && after.terminalTime.None? && after.deleteAfter.None?)
            || (w.StampTerminal? && r.terminalTime.None?)
  {
  }

  /** A recorded deadline moves only when the run is revised, and a revision removes it. */
  lemma DeadlineMovesOnlyByRevision(s: State, a: Action, name: string)
    requires Inv(s) && name in s.runs && s.runs[name].terminalTime.Some?
    requires Stored(Apply(s, a), name, s.runs[name].uid)
    ensures var r, after := s.runs[name], Apply(s, a).runs[name];
            || (after.terminalTime == r.terminalTime && after.deleteAfter == r.deleteAfter)
            || (IsRevision(a, r.uid) && after.terminalTime.None? && after.deleteAfter.None?)
  {
    hide Enabled, Updated, History, VersionsUnique, RunWellFormed, ConfigInv, SafetyInv, HasAcceptedStop, RevisionRouted,
      CanPatchConfig, ConfigUpdated;
    match a
    case PatchRun(base, w) =>
      if base in s.log && Enabled(base, w) && Unchanged(s, base) {
        UnchangedIsStored(s, base);
        WriteMovesDeadline(base, w, s.clock);
      }
    case ReviseRefreshed(base) =>
      if base in s.refreshed && Unchanged(s, base) {
        UnchangedIsStored(s, base);
      }
    case _ =>
  }

  lemma DeadlineStands(s: State, a: Action, uid: Uid)
    requires Inv(s) && !IsRevision(a, uid)
    ensures DeadlineKept(s, Apply(s, a), uid)
  {
    forall n | Stored(s, n, uid) && Stored(Apply(s, a), n, uid) && s.runs[n].terminalTime.Some?
      ensures Apply(s, a).runs[n].terminalTime == s.runs[n].terminalTime
      ensures Apply(s, a).runs[n].deleteAfter == s.runs[n].deleteAfter
    {
      DeadlineMovesOnlyByRevision(s, a, n);
    }
  }

  lemma DeadlineKeptTransitive(s: State, t: State, v: State, uid: Uid)
    requires Inv(s) && LaterState(t, v) && s.usedUids <= t.usedUids && DeadlineKept(s, t, uid) && DeadlineKept(t, v, uid)
    ensures DeadlineKept(s, v, uid)
  {
    forall n | Stored(s, n, uid) && Stored(v, n, uid) && s.runs[n].terminalTime.Some?
      ensures v.runs[n].terminalTime == s.runs[n].terminalTime && v.runs[n].deleteAfter == s.runs[n].deleteAfter
    {
      assert s.runs[n] in s.log;
      assert Stored(t, n, uid);
    }
  }
}
