/** What every call and every expiry of a timer leaves of an Ethernet port when nothing else
    runs: its flags, and kind by kind how many timers are pending. */
module TimerEffects {
  import opened MachineInts
  import opened PortTimers
  import opened TimerRuns
  import Q = TimerQueue

  // ---- the tables -------------------------------------------------------------------------

  /** How many timers of a kind a port has on becoming master, of n before. */
  function AsMaster(cfg: Config, kind: Q.Kind, n: nat): nat {
    match kind
    case AnnounceReceipt => 0
    case SyncReceipt => 0
    case SyncInterval => 1
    case AnnounceInterval => if cfg.automotive then n else 1
    case _ => n
  }

  /** And on becoming slave. */
  function AsSlave(cfg: Config, kind: Q.Kind, n: nat): nat {
    match kind
    case AnnounceInterval => 0
    case SyncInterval => 0
    case AnnounceReceipt => if cfg.automotive then n else n + 1
    case _ => n
  }

  /** Power-up and a link that comes up make a port that may only be a slave, or is one, a
      slave, and a master a master; another one waits for an announce. */
  function AsBefore(cfg: Config, role: Role, kind: Q.Kind, n: nat): nat {
    if cfg.slaveOnly || role == Slave then AsSlave(cfg, kind, n)
    else if role == Master then AsMaster(cfg, kind, n)
    else if kind == Q.AnnounceReceipt then n + 1
    else n
  }

  function RoleBefore(cfg: Config, role: Role): Role { if cfg.slaveOnly then Slave else role }

  /** The automotive profile, unless grandmaster, then waits for a Sync. */
  function Waits(cfg: Config, kind: Q.Kind, n: nat): nat {
    if kind == Q.SyncReceipt && cfg.automotive && !cfg.grandmaster then 1 else n
  }

  /** Requests are started at power-up by an automotive port, or one without a role. */
  predicate Boots(f: Flags) {
    !f.x.halted && (f.cfg.automotive || (f.role == Initializing && !f.cfg.slaveOnly))
  }

  /** A Follow_Up that a slave uses, or a Sync that is due, starts them if they are not. */
  predicate Begins(f: Flags) { !f.x.started && !f.x.halted }

  /** And a SYNC_RATE timer, in the automotive profile, if none was started. */
  predicate Rates(f: Flags, d: Detail) { f.cfg.automotive && d.differs && !f.rateStarted }

  function SyncSeen(f: Flags, d: Detail, kind: Q.Kind, n: nat): nat {
    if kind == Q.SyncRate && Rates(f, d) then n + 1
    else if kind == Q.PDelayInterval && Begins(f) then 1
    else n
  }

  function SyncFlags(f: Flags, d: Detail): Flags {
    f.(rateStarted := f.rateStarted || Rates(f, d), x := f.x.(started := f.x.started || Begins(f)))
  }

  /** Timers of a kind after a call, of n before. */
  function CountAfter(f: Flags, c: Call, kind: Q.Kind, n: nat): nat {
    match c
    case PowerUp =>
      if kind == Q.PDelayInterval && Boots(f) then 1
      else Waits(f.cfg, kind, AsBefore(f.cfg, f.role, kind, n))
    case LinkUp =>
      if kind == Q.PDelayInterval then 1 else Waits(f.cfg, kind, AsBefore(f.cfg, f.role, kind, n))
    case LinkDown => if kind == Q.PDelayInterval then 0 else n
    case Announce(acceptable) =>
      if kind == Q.AnnounceReceipt then 1 else if kind == Q.StateChange && acceptable then n + 1 else n
    case FollowUp(paired, d) =>
      if paired == Forced then AsMaster(f.cfg, kind, n)
      else if paired == Used && f.role == Slave then
        if kind == Q.SyncReceipt then 1 else SyncSeen(f, d, kind, n)
      else if kind == Q.SyncReceipt then 0
      else n
    case Response(misbehaved) =>
      if misbehaved && kind == Q.PDelayInterval then 0
      else if misbehaved && kind == Q.PeerMisbehaving then n + 1
      else n
    case RespFollowUp(matched) => Followup(f.x, matched, kind, n)
    case Signalling(pdelay, sync, announce) =>
      if kind == Q.PDelayInterval && pdelay then 1
      else if kind == Q.SyncInterval && sync then 1
      else if kind == Q.AnnounceInterval && announce && !f.cfg.automotive then 1
      else n
  }

  /** A follow-up of the request and the response held ends the wait for the response, and is
      deferred if the request has no timestamp. */
  function Followup(x: Pdelay, matched: bool, kind: Q.Kind, n: nat): nat {
    var found := x.requested && x.responded && matched;
    if kind == Q.PDelayRespReceipt && found then 0
    else if kind == Q.PDelayDeferred && found && x.unstamped then n + 1
    else n
  }

  function FollowupFlags(x: Pdelay, matched: bool): Pdelay {
    if x.requested && x.responded && matched && x.unstamped then x.(kept := true) else x.(responded := false)
  }

  /** The flags after a call. */
  function FlagsAfter(f: Flags, c: Call): Flags {
    match c
    case PowerUp =>
      f.(role := RoleBefore(f.cfg, f.role), phase := Running, x := f.x.(started := f.x.started || Boots(f)))
    case LinkUp => f.(role := RoleBefore(f.cfg, f.role), x := f.x.(halted := false, started := true))
    case LinkDown => f.(x := f.x.(halted := true, started := false))
    case Announce(_) => f
    case FollowUp(paired, d) =>
      if paired == Forced then f.(role := Master)
      else if paired == Used && f.role == Slave then SyncFlags(f, d)
      else f
    case Response(misbehaved) =>
      f.(x := if misbehaved then f.x.(halted := true, started := false, responded := true)
              else f.x.(responded := true))
    case RespFollowUp(matched) => f.(x := FollowupFlags(f.x, matched))
    case Signalling(_, _, _) => f
  }

  /** Timers of a kind after the expiry of another, or of the same, of n left. */
  function CountThen(f: Flags, expired: Q.Kind, d: Detail, kind: Q.Kind, n: nat): nat {
    match expired
    case StateChange =>
      if f.cfg.automotive || d.elected.None? then n
      else if d.elected == Some(Master) then AsMaster(f.cfg, kind, n)
      else if d.elected == Some(Slave) then AsSlave(f.cfg, kind, n)
      else n
    case SyncInterval => if kind == Q.SyncInterval then 1 else SyncSeen(f, d, kind, n)
    case PDelayInterval =>
      if kind == Q.PDelayInterval then 1 else if kind == Q.PDelayRespReceipt then n + 1 else n
    case SyncReceipt =>
      if kind == Q.SyncReceipt && (f.cfg.automotive || !f.cfg.slaveOnly) then 1
      else if f.cfg.automotive || f.cfg.slaveOnly then n
      else TakesOver(f.role, kind, n)
    case AnnounceReceipt =>
      if f.cfg.automotive || f.cfg.slaveOnly then n
      else if kind == Q.AnnounceReceipt then n + 1
      else TakesOver(f.role, kind, n)
    case AnnounceInterval => if kind == Q.AnnounceInterval then 1 else n
    case PDelayDeferred => Followup(f.x, d.matched, kind, n)
    case PDelayRespReceipt => n
    case PeerMisbehaving => if kind == Q.PDelayInterval && f.role == Initializing then 1 else n
    case SyncRate => if kind == Q.SyncReceipt && d.signals && !f.cfg.grandmaster then 1 else n
  }

  /** A port that is not master begins to send Sync and Announce. */
  function TakesOver(role: Role, kind: Q.Kind, n: nat): nat {
    if role == Master then n
    else if kind == Q.SyncInterval then n + 1
    else if kind == Q.AnnounceInterval then 1
    else n
  }

  /** The flags after an expiry. */
  function FlagsThen(f: Flags, expired: Q.Kind, d: Detail): Flags {
    match expired
    case StateChange =>
      if f.cfg.automotive then f
      else if d.elected == Some(Master) then f.(role := Master)
      else if d.elected == Some(Slave) then f.(role := Slave)
      else f
    case SyncInterval => SyncFlags(f, d)
    case PDelayInterval => f.(x := f.x.(requested := true, unstamped := f.x.halted))
    case SyncReceipt => if f.cfg.automotive || f.cfg.slaveOnly then f else f.(role := Master)
    case AnnounceReceipt => if f.cfg.automotive || f.cfg.slaveOnly then f else f.(role := Master)
    case AnnounceInterval => f
    case PDelayDeferred => f.(x := FollowupFlags(f.x.(kept := false), d.matched))
    case PDelayRespReceipt => f
    case PeerMisbehaving => f.(x := f.x.(halted := false, started := f.x.started || f.role == Initializing))
    case SyncRate => f.(rateStarted := false)
  }

  // ---- calls --------------------------------------------------------------------------------

  /** The timers of a kind that the basic operations leave. */
  lemma Counts(a: Calm, kind: Q.Kind, k: Q.Kind)
    ensures Restarted(a, kind).n[k] == if k == kind then 1 else a.n[k]
    ensures Added(a, kind).n[k] == if k == kind then a.n[k] + 1 else a.n[k]
    ensures Dropped(a, kind).n[k] == if k == kind then 0 else a.n[k]
  {
  }

  lemma EnterLeaves(a: Calm, k: Q.Kind)
    ensures var b := PerformAll(a, EnterRole(a.f.cfg, a.f.role));
            b.f == a.f.(role := RoleBefore(a.f.cfg, a.f.role)) && b.n[k] == AsBefore(a.f.cfg, a.f.role, k, a.n[k])
  {
    EnterTimers(a);
    SlaveLeaves(a, k);
    MasterLeaves(a, k);
    Counts(a, Q.AnnounceReceipt, k);
  }

  lemma SlaveLeaves(a: Calm, k: Q.Kind)
    ensures SlaveDone(a).f == a.f.(role := Slave) && SlaveDone(a).n[k] == AsSlave(a.f.cfg, k, a.n[k])
  {
    var b := Dropped(Dropped(a, Q.AnnounceInterval), Q.SyncInterval);
    Counts(a, Q.AnnounceInterval, k);
    Counts(Dropped(a, Q.AnnounceInterval), Q.SyncInterval, k);
    Counts(b.(f := a.f.(role := Slave)), Q.AnnounceReceipt, k);
  }

  lemma MasterLeaves(a: Calm, k: Q.Kind)
    ensures MasterDone(a).f == a.f.(role := Master) && MasterDone(a).n[k] == AsMaster(a.f.cfg, k, a.n[k])
  {
    MasterTimers(a);
    MasterDoes(a);
  }

  lemma RenewLeaves(a: Calm, k: Q.Kind)
    ensures var b := PerformAll(a, When(a.f.cfg.automotive && !a.f.cfg.grandmaster, [Renew]));
            b.f == a.f && b.n[k] == Waits(a.f.cfg, k, a.n[k])
  {
    One(a, Renew);
  }

  lemma OpenDoes(a: Calm)
    ensures Perform(a, Open) == a.(f := a.f.(phase := Running))
  {
  }

  lemma BootLeaves(a: Calm, k: Q.Kind)
    ensures var b, boots := PerformAll(a, [BootPDelay, Open]),
                            !a.f.x.halted && (a.f.cfg.automotive || a.f.role == Initializing);
            && b.f == a.f.(phase := Running, x := a.f.x.(started := a.f.x.started || boots))
            && b.n[k] == if k == Q.PDelayInterval && boots then 1 else a.n[k]
  {
    Peel(a, BootPDelay, [Open]);
    assert [BootPDelay] + [Open] == [BootPDelay, Open];
    One(Perform(a, BootPDelay), Open);
    OpenDoes(Perform(a, BootPDelay));
    Counts(a, Q.PDelayInterval, k);
  }

  lemma PowerUpLeaves(a: Calm, k: Q.Kind)
    ensures var b := CallDone(a, PowerUp);
            b.f == FlagsAfter(a.f, PowerUp) && b.n[k] == CountAfter(a.f, PowerUp, k, a.n[k])
  {
    var start := a.(f := a.f.(phase := Starting));
    var p, q := EnterRole(a.f.cfg, a.f.role), [BootPDelay, Open];
    PerformSum(start, p + q, When(a.f.cfg.automotive && !a.f.cfg.grandmaster, [Renew]));
    PerformSum(start, p, q);
    EnterLeaves(start, k);
    var b := PerformAll(start, p);
    BootLeaves(b, k);
    RenewLeaves(PerformAll(b, q), k);
    BegunPut(a.f, PowerUp);
  }

  lemma UnhaltDoes(a: Calm)
    ensures Perform(a, Unhalt) == a.(f := a.f.(x := a.f.x.(halted := false)))
  {
  }

  lemma StartLeaves(a: Calm, k: Q.Kind)
    ensures var b := PerformAll(a, [Unhalt, StartPDelay]);
            && b.f == a.f.(x := a.f.x.(halted := false, started := true))
            && b.n[k] == if k == Q.PDelayInterval then 1 else a.n[k]
  {
    var b := a.(f := a.f.(x := a.f.x.(halted := false)));
    Peel(a, Unhalt, [StartPDelay]);
    assert [Unhalt] + [StartPDelay] == [Unhalt, StartPDelay];
    UnhaltDoes(a);
    One(b, StartPDelay);
    Counts(b, Q.PDelayInterval, k);
  }

  lemma LinkUpLeaves(a: Calm, k: Q.Kind)
    ensures var b := CallDone(a, LinkUp);
            b.f == FlagsAfter(a.f, LinkUp) && b.n[k] == CountAfter(a.f, LinkUp, k, a.n[k])
  {
    var p, q := [Unhalt, StartPDelay], EnterRole(a.f.cfg, a.f.role);
    PerformSum(a, p + q, When(a.f.cfg.automotive && !a.f.cfg.grandmaster, [Renew]));
    PerformSum(a, p, q);
    StartLeaves(a, k);
    var b := PerformAll(a, p);
    EnterLeaves(b, k);
    RenewLeaves(PerformAll(b, q), k);
    BegunPut(a.f, LinkUp);
  }

  lemma HaltDoes(a: Calm)
    ensures Perform(a, Halt) == a.(f := a.f.(x := a.f.x.(halted := true, started := false)))
  {
  }

  lemma LinkDownLeaves(a: Calm, k: Q.Kind)
    ensures var b := CallDone(a, LinkDown);
            b.f == FlagsAfter(a.f, LinkDown) && b.n[k] == CountAfter(a.f, LinkDown, k, a.n[k])
  {
    var b := a.(f := a.f.(x := a.f.x.(halted := true, started := false)));
    Peel(a, Halt, [Remove(Q.PDelayInterval)]);
    assert [Halt] + [Remove(Q.PDelayInterval)] == [Halt, Remove(Q.PDelayInterval)];
    HaltDoes(a);
    One(b, Remove(Q.PDelayInterval));
    BasicSteps(b, Q.PDelayInterval, Slave);
    Counts(b, Q.PDelayInterval, k);
  }

  lemma AnnounceLeaves(a: Calm, acceptable: bool, k: Q.Kind)
    ensures var b := CallDone(a, Announce(acceptable));
            b.f == a.f && b.n[k] == CountAfter(a.f, Announce(acceptable), k, a.n[k])
  {
    var b := Dropped(a, Q.AnnounceReceipt);
    HeardDoes(a, acceptable);
    Counts(a, Q.AnnounceReceipt, k);
    Counts(b, Q.StateChange, k);
    Counts(if acceptable then Added(b, Q.StateChange) else b, Q.AnnounceReceipt, k);
  }

  lemma EnsureLeaves(a: Calm, k: Q.Kind)
    ensures var b := PerformAll(a, [EnsurePDelay]);
            && b.f == a.f.(x := a.f.x.(started := a.f.x.started || Begins(a.f)))
            && b.n[k] == if k == Q.PDelayInterval && Begins(a.f) then 1 else a.n[k]
  {
    One(a, EnsurePDelay);
    Counts(a, Q.PDelayInterval, k);
  }

  lemma SyncDoneLeaves(a: Calm, d: Detail, k: Q.Kind)
    ensures var b := PerformAll(a, SyncDone(a.f.cfg, d));
            b.f == SyncFlags(a.f, d) && b.n[k] == SyncSeen(a.f, d, k, a.n[k])
  {
    var p := When(a.f.cfg.automotive && d.differs, [TestRate]);
    PerformSum(a, p, [EnsurePDelay]);
    RateDoes(a, d);
    Counts(a.(f := a.f.(rateStarted := true)), Q.SyncRate, k);
    EnsureLeaves(PerformAll(a, p), k);
  }

  lemma ForcedLeaves(a: Calm, d: Detail, k: Q.Kind)
    ensures var b := CallDone(a, FollowUp(Forced, d));
            b.f == a.f.(role := Master) && b.n[k] == AsMaster(a.f.cfg, k, a.n[k])
  {
    var b := Dropped(a, Q.SyncReceipt);
    Peel(a, Remove(Q.SyncReceipt), ToMaster(a.f.cfg));
    BasicSteps(a, Q.SyncReceipt, Master);
    MasterDoes(b);
    MasterLeaves(b, k);
    Counts(a, Q.SyncReceipt, k);
  }

  lemma FollowUpLeaves(a: Calm, paired: Paired, d: Detail, k: Q.Kind)
    ensures var b := CallDone(a, FollowUp(paired, d));
            && b.f == FlagsAfter(a.f, FollowUp(paired, d))
            && b.n[k] == CountAfter(a.f, FollowUp(paired, d), k, a.n[k])
  {
    var b := Dropped(a, Q.SyncReceipt);
    if paired == Forced {
      ForcedLeaves(a, d, k);
    } else {
      UsedDoes(a, d);
      SyncDoneLeaves(b, d, k);
      Counts(a, Q.SyncReceipt, k);
      Counts(PerformAll(b, SyncDone(a.f.cfg, d)), Q.SyncReceipt, k);
    }
  }

  lemma MayRestart(a: Calm, b: bool, kind: Q.Kind)
    ensures PerformAll(a, When(b, [Restart(kind)])) == if b then Restarted(a, kind) else a
    ensures PerformAll(a, When(b, [StartSync])) == if b then Restarted(a, Q.SyncInterval) else a
  {
    One(a, Restart(kind));
    One(a, StartSync);
  }

  /** A kind that is restarted or not. */
  function Once(b: bool, kind: Q.Kind, k: Q.Kind, n: nat): nat { if b && k == kind then 1 else n }

  lemma MayRestartLeaves(a: Calm, b: bool, kind: Q.Kind, k: Q.Kind)
    ensures var c := PerformAll(a, When(b, [Restart(kind)])); c.f == a.f && c.n[k] == Once(b, kind, k, a.n[k])
    ensures var c := PerformAll(a, When(b, [StartSync])); c.f == a.f && c.n[k] == Once(b, Q.SyncInterval, k, a.n[k])
  {
    MayRestart(a, b, kind);
    Counts(a, kind, k);
    Counts(a, Q.SyncInterval, k);
  }

  lemma SignallingLeaves(a: Calm, pdelay: bool, sync: bool, announce: bool, k: Q.Kind)
    ensures var b, c := CallDone(a, Signalling(pdelay, sync, announce)), Signalling(pdelay, sync, announce);
            b.f == a.f && b.n[k] == CountAfter(a.f, c, k, a.n[k])
  {
    var p, q := When(pdelay, [Restart(Q.PDelayInterval)]), When(sync, [StartSync]);
    var restarts := announce && !a.f.cfg.automotive;
    var b, c := PerformAll(a, p), PerformAll(PerformAll(a, p), q);
    PerformSum(a, p + q, When(restarts, [Restart(Q.AnnounceInterval)]));
    PerformSum(a, p, q);
    MayRestartLeaves(a, pdelay, Q.PDelayInterval, k);
    MayRestartLeaves(b, sync, Q.SyncInterval, k);
    MayRestartLeaves(c, restarts, Q.AnnounceInterval, k);
  }

  lemma ResponseLeaves(a: Calm, misbehaved: bool, k: Q.Kind)
    ensures var b, c := CallDone(a, Response(misbehaved)), Response(misbehaved);
            b.f == FlagsAfter(a.f, c) && b.n[k] == CountAfter(a.f, c, k, a.n[k])
  {
    var b := a.(f := a.f.(x := a.f.x.(halted := true, started := false, responded := true)));
    One(a, TryResponse(misbehaved));
    Counts(b, Q.PDelayInterval, k);
    Counts(Dropped(b, Q.PDelayInterval), Q.PeerMisbehaving, k);
  }

  /** A follow-up, taken by a call or from where it was kept. */
  lemma FollowedLeaves(a: Calm, matched: bool, k: Q.Kind)
    ensures var b := Followed(a, matched);
            b.f == a.f.(x := FollowupFlags(a.f.x, matched)) && b.n[k] == Followup(a.f.x, matched, k, a.n[k])
  {
    var b := a.(f := a.f.(x := a.f.x.(kept := true)));
    Counts(b, Q.PDelayRespReceipt, k);
    Counts(Dropped(b, Q.PDelayRespReceipt), Q.PDelayDeferred, k);
    Counts(a.(f := a.f.(x := a.f.x.(responded := false))), Q.PDelayRespReceipt, k);
  }

  lemma RespFollowUpLeaves(a: Calm, matched: bool, k: Q.Kind)
    ensures var b, c := CallDone(a, RespFollowUp(matched)), RespFollowUp(matched);
            b.f == FlagsAfter(a.f, c) && b.n[k] == CountAfter(a.f, c, k, a.n[k])
  {
    One(a, TryFollowUp(matched));
    FollowedLeaves(a, matched, k);
  }

  /** Every call, from every state at rest, leaves flags and timers as the table says. */
  lemma CallLeaves(a: Calm, c: Call, k: Q.Kind)
    ensures CallDone(a, c).f == FlagsAfter(a.f, c) && CallDone(a, c).n[k] == CountAfter(a.f, c, k, a.n[k])
  {
    match c {
      case PowerUp => PowerUpLeaves(a, k);
      case LinkUp => LinkUpLeaves(a, k);
      case LinkDown => LinkDownLeaves(a, k);
      case Announce(acceptable) => AnnounceLeaves(a, acceptable, k);
      case FollowUp(paired, d) => FollowUpLeaves(a, paired, d, k);
      case Response(misbehaved) => ResponseLeaves(a, misbehaved, k);
      case RespFollowUp(matched) => RespFollowUpLeaves(a, matched, k);
      case Signalling(pdelay, sync, announce) => SignallingLeaves(a, pdelay, sync, announce, k);
    }
  }

  // ---- expiries -----------------------------------------------------------------------------

  lemma LessLeaves(a: Calm, kind: Q.Kind, k: Q.Kind)
    requires kind in a.n
    ensures Less(a, kind).f == a.f && Less(a, kind).n[k] == if k == kind then a.n[k] - 1 else a.n[k]
  {
  }

  lemma Undecided(cfg: Config, role: Role, d: Detail)
    requires cfg.automotive || d.elected !in {Some(Master), Some(Slave)}
    ensures Callback(cfg, role, Q.StateChange, d) == []
  {
  }

  lemma ElectionLeaves(a: Calm, d: Detail, k: Q.Kind)
    requires Q.StateChange in a.n
    ensures var b, n := ExpiryDone(a, Q.StateChange, d), Less(a, Q.StateChange).n[k];
            b.f == FlagsThen(a.f, Q.StateChange, d) && b.n[k] == CountThen(a.f, Q.StateChange, d, k, n)
  {
    var b := Less(a, Q.StateChange);
    if a.f.cfg.automotive || d.elected !in {Some(Master), Some(Slave)} {
      Undecided(a.f.cfg, a.f.role, d);
    } else {
      ElectionTimers(a, d);
      if d.elected == Some(Master) {
        MasterLeaves(b, k);
      } else {
        SlaveLeaves(b, k);
      }
    }
  }

  lemma SyncIntervalLeaves(a: Calm, d: Detail, k: Q.Kind)
    requires Q.SyncInterval in a.n
    ensures var b, n := ExpiryDone(a, Q.SyncInterval, d), Less(a, Q.SyncInterval).n[k];
            b.f == SyncFlags(a.f, d) && b.n[k] == CountThen(a.f, Q.SyncInterval, d, k, n)
  {
    var b, p := Less(a, Q.SyncInterval), SyncDone(a.f.cfg, d);
    PerformSum(b, p, [StartSync]);
    SyncDoneLeaves(b, d, k);
    One(PerformAll(b, p), StartSync);
    Counts(PerformAll(b, p), Q.SyncInterval, k);
  }

  lemma RequestDoes(a: Calm)
    ensures Perform(a, NewRequest) == a.(f := a.f.(x := a.f.x.(requested := true, unstamped := a.f.x.halted)))
  {
  }

  lemma RequestLeaves(a: Calm, d: Detail, k: Q.Kind)
    requires Q.PDelayInterval in a.n
    ensures var b, n := ExpiryDone(a, Q.PDelayInterval, d), Less(a, Q.PDelayInterval).n[k];
            b.f == FlagsThen(a.f, Q.PDelayInterval, d) && b.n[k] == CountThen(a.f, Q.PDelayInterval, d, k, n)
  {
    var b := Less(a, Q.PDelayInterval);
    var c := Perform(b, NewRequest);
    Three(b, NewRequest, Insert(Q.PDelayRespReceipt), Restart(Q.PDelayInterval));
    RequestDoes(b);
    BasicSteps(c, Q.PDelayRespReceipt, Master);
    Counts(c, Q.PDelayRespReceipt, k);
    Counts(Added(c, Q.PDelayRespReceipt), Q.PDelayInterval, k);
  }

  lemma TakeOverLeaves(a: Calm, k: Q.Kind)
    ensures var b := PerformAll(a, TakeOver(a.f.role));
            b.f == a.f.(role := Master) && b.n[k] == TakesOver(a.f.role, k, a.n[k])
  {
    TakeOverTimers(a);
  }

  lemma TimeoutLeaves(a: Calm, kind: Q.Kind, d: Detail, k: Q.Kind)
    requires kind in a.n && (kind == Q.SyncReceipt || kind == Q.AnnounceReceipt)
    ensures var b, n := ExpiryDone(a, kind, d), Less(a, kind).n[k];
            b.f == FlagsThen(a.f, kind, d) && b.n[k] == CountThen(a.f, kind, d, k, n)
  {
    var b := Less(a, kind);
    if a.f.cfg.automotive || a.f.cfg.slaveOnly {
      IdleTimeoutTimers(a, kind, d);
      Counts(a, Q.SyncReceipt, k);
      LessLeaves(a, kind, k);
    } else {
      var op := if kind == Q.SyncReceipt then Renew else Insert(Q.AnnounceReceipt);
      Peel(b, op, TakeOver(a.f.role));
      WaitLeaves(b, kind, k);
      TakeOverLeaves(Perform(b, op), k);
    }
  }

  lemma WaitLeaves(a: Calm, kind: Q.Kind, k: Q.Kind)
    requires kind == Q.SyncReceipt || kind == Q.AnnounceReceipt
    ensures var b := Perform(a, if kind == Q.SyncReceipt then Renew else Insert(Q.AnnounceReceipt));
            && b.f == a.f
            && b.n[k] == if k != kind then a.n[k] else if kind == Q.SyncReceipt then 1 else a.n[k] + 1
  {
    BasicSteps(a, Q.AnnounceReceipt, Master);
    Counts(a, Q.AnnounceReceipt, k);
  }

  lemma RecoveryLeaves(a: Calm, d: Detail, k: Q.Kind)
    requires Q.PeerMisbehaving in a.n
    ensures var b, n := ExpiryDone(a, Q.PeerMisbehaving, d), Less(a, Q.PeerMisbehaving).n[k];
            b.f == FlagsThen(a.f, Q.PeerMisbehaving, d) && b.n[k] == CountThen(a.f, Q.PeerMisbehaving, d, k, n)
  {
    var b := Less(a, Q.PeerMisbehaving);
    Peel(b, Unhalt, When(a.f.role == Initializing, [StartPDelay]));
    UnhaltDoes(b);
    One(Perform(b, Unhalt), StartPDelay);
    Counts(Perform(b, Unhalt), Q.PDelayInterval, k);
  }

  lemma ClearDoes(a: Calm)
    ensures Perform(a, ClearRate) == a.(f := a.f.(rateStarted := false))
  {
  }

  lemma RateLeaves(a: Calm, d: Detail, k: Q.Kind)
    requires Q.SyncRate in a.n
    ensures var b, n := ExpiryDone(a, Q.SyncRate, d), Less(a, Q.SyncRate).n[k];
            b.f == a.f.(rateStarted := false) && b.n[k] == CountThen(a.f, Q.SyncRate, d, k, n)
  {
    var b := Less(a, Q.SyncRate);
    Peel(b, ClearRate, When(d.signals && !a.f.cfg.grandmaster, [Renew]));
    ClearDoes(b);
    One(Perform(b, ClearRate), Renew);
  }

  /** Every expiry but that of PDELAY_DEFERRED, from every state at rest, leaves flags and
      timers as the table says. */
  lemma ExpiryLeaves(a: Calm, kind: Q.Kind, d: Detail, k: Q.Kind)
    requires kind in a.n && kind != Q.PDelayDeferred
    ensures var b, n := ExpiryDone(a, kind, d), Less(a, kind).n[k];
            b.f == FlagsThen(a.f, kind, d) && b.n[k] == CountThen(a.f, kind, d, k, n)
  {
    match kind {
      case StateChange => ElectionLeaves(a, d, k);
      case SyncInterval => SyncIntervalLeaves(a, d, k);
      case PDelayInterval => RequestLeaves(a, d, k);
      case SyncReceipt => TimeoutLeaves(a, kind, d, k);
      case AnnounceReceipt => TimeoutLeaves(a, kind, d, k);
      case AnnounceInterval =>
        One(Less(a, kind), Restart(Q.AnnounceInterval));
        Counts(Less(a, kind), Q.AnnounceInterval, k);
      case PDelayRespReceipt =>
      case PeerMisbehaving => RecoveryLeaves(a, d, k);
      case SyncRate => RateLeaves(a, d, k);
    }
  }

  // ---- the deferred follow-up --------------------------------------------------------------------

  /** A port that takes the follow-up it kept, which it keeps no longer. */
  function Taken(a: Calm): Calm { a.(f := a.f.(x := a.f.x.(kept := false))) }

  lemma KeptTrace(a: Calm, matched: bool) returns (tr: seq<Spot>)
    requires !a.f.dead && |a.n| + 1 < Q.KEYS
    ensures Trace(tr, Spot(a, [TakeFollowUp(matched)] + [PutRx]), Spot(Followed(a, matched), []))
  {
    var b := Followed(a, matched);
    var first := TakeTrace(a, matched, [PutRx]);
    tr := DirectTrace(b, PutRx, []);
    assert [PutRx] + [] == [PutRx];
    tr := TraceJoin(first, Spot(a, [TakeFollowUp(matched)] + [PutRx]), Spot(b, [PutRx]), tr, Spot(b, []));
  }

  lemma TakeKeptDoes(a: Calm, matched: bool)
    requires a.f.x.kept && !a.f.dead
    ensures Hop(a, TakeKept(matched)) == Taken(a) && Continue(a.f, {}, TakeKept(matched)) == [TakeFollowUp(matched)]
    ensures Hop(a, LockRx(matched)) == a && Continue(a.f, {}, LockRx(matched)) == [TakeKept(matched), PutRx]
  {
  }

  lemma DeferredTrace(a: Calm, matched: bool) returns (tr: seq<Spot>)
    requires !a.f.dead && |a.n| + 1 < Q.KEYS && a.f.x.kept
    ensures Trace(tr, Spot(a, [LockRx(matched)]), Spot(Followed(Taken(a), matched), []))
  {
    var y := Spot(Followed(Taken(a), matched), []);
    TakeKeptDoes(a, matched);
    tr := KeptTrace(Taken(a), matched);
    tr := Before(a, TakeKept(matched), [PutRx], tr, y);
    assert [TakeKept(matched), PutRx] + [] == [TakeKept(matched)] + [PutRx];
    tr := Before(a, LockRx(matched), [], tr, y);
    assert [LockRx(matched)] + [] == [LockRx(matched)];
  }

  lemma DeferredLeaves(a: Calm, d: Detail)
    requires Q.PDelayDeferred in a.n
    ensures var b := Followed(Taken(Less(a, Q.PDelayDeferred)), d.matched);
            && b.f == FlagsThen(a.f, Q.PDelayDeferred, d)
            && forall k :: b.n[k] == CountThen(a.f, Q.PDelayDeferred, d, k, Less(a, Q.PDelayDeferred).n[k])
  {
    var c := Less(a, Q.PDelayDeferred);
    forall k
      ensures Followed(Taken(c), d.matched).f == FlagsThen(a.f, Q.PDelayDeferred, d)
      ensures Followed(Taken(c), d.matched).n[k] == CountThen(a.f, Q.PDelayDeferred, d, k, c.n[k])
    {
      FollowedLeaves(Taken(c), d.matched, k);
    }
    FollowedLeaves(Taken(c), d.matched, Q.PDelayDeferred);
  }

  /** The expiry of PDELAY_DEFERRED with a follow-up kept takes that one again, as if it came
      now. */
  lemma DeferredRuns(w0: World, es: seq<Event>, a: Calm, d: Detail) returns (es': seq<Event>, b: Calm)
    requires Rests(w0, es, a) && Q.PDelayDeferred in a.n && a.f.x.kept && |a.n| + 8 < Q.KEYS
    ensures Rests(w0, es', b) && Calls(es') == Calls(es) && b.f == FlagsThen(a.f, Q.PDelayDeferred, d)
    ensures forall k :: b.n[k] == CountThen(a.f, Q.PDelayDeferred, d, k, Less(a, Q.PDelayDeferred).n[k])
  {
    var c := Less(a, Q.PDelayDeferred);
    b := Followed(Taken(c), d.matched);
    DeferredLeaves(a, d);
    es' := DeferredGoes(w0, es, a, d);
  }

  lemma DeferredGoes(w0: World, es: seq<Event>, a: Calm, d: Detail) returns (es': seq<Event>)
    requires Rests(w0, es, a) && Q.PDelayDeferred in a.n && a.f.x.kept && |a.n| + 8 < Q.KEYS
    ensures Rests(w0, es', Followed(Taken(Less(a, Q.PDelayDeferred)), d.matched)) && Calls(es') == Calls(es)
  {
    var c := Less(a, Q.PDelayDeferred);
    var b := Followed(Taken(c), d.matched);
    var tr := DeferredTrace(c, d.matched);
    var e := Signalled(w0, es, Rest(a.f), a.n, true, Q.PDelayDeferred, d);
    CallsOn(es, e);
    RestIdle(a.f, Timer, b);
    es' := TraceRuns(w0, es + [e], true, Rest(a.f), Timer, tr, Spot(c, [LockRx(d.matched)]), Spot(b, []));
  }

  lemma AbortTrace(a: Calm, matched: bool) returns (tr: seq<Spot>)
    requires !a.f.dead && |a.n| + 1 < Q.KEYS && !a.f.x.kept
    ensures Trace(tr, Spot(a, [LockRx(matched)]), Spot(a.(f := a.f.(dead := true)), [PutRx]))
  {
    var y := Spot(a.(f := a.f.(dead := true)), [PutRx]);
    tr := DirectTrace(a, TakeKept(matched), [PutRx]);
    assert Continue(a.f, {}, LockRx(matched)) + [] == [TakeKept(matched)] + [PutRx];
    tr := Before(a, LockRx(matched), [], tr, y);
    assert [LockRx(matched)] + [] == [LockRx(matched)];
  }

  /** Without one the process aborts, and nothing happens any more. */
  lemma DeferredAborts(w0: World, es: seq<Event>, a: Calm, d: Detail) returns (es': seq<Event>, w: World)
    requires Rests(w0, es, a) && Q.PDelayDeferred in a.n && !a.f.x.kept && |a.n| + 8 < Q.KEYS
    ensures Reaches(w0, es', w, true) && w.s.f.dead && forall e :: !Enabled(w, e)
  {
    var c := Less(a, Q.PDelayDeferred);
    var x, y := Spot(c, [LockRx(d.matched)]), Spot(c.(f := c.f.(dead := true)), [PutRx]);
    var tr := AbortTrace(c, d.matched);
    var e := Signalled(w0, es, Rest(a.f), a.n, true, Q.PDelayDeferred, d);
    RestIdle(a.f, Timer, c);
    es' := TraceRuns(w0, es + [e], true, Rest(a.f), Timer, tr, x, y);
    w :| Reaches(w0, es', w, true) && w.s == Put(Rest(a.f), Timer, y) && Matches(w.t.q, y.a.n);
  }

  // ---- which calls can overlap --------------------------------------------------------------------

  /** Power-up comes first, and until it lets the other threads start no call is made. */
  lemma PowerUpFirst(cfg: Config, role: Role, c: Call)
    ensures Enabled(Start(cfg, role), Begin(c)) <==> c == PowerUp
    ensures !Enabled(Next(Start(cfg, role), Begin(PowerUp)), Begin(c))
  {
  }

  /** Then a second call can be made during a first one exactly if one of them comes from the
      link and the other from the network, or the first has nothing to do. */
  lemma CallsOverlap(w: World, c: Call, d: Call)
    requires w.s.Quiet() && w.s.f.phase == Running && !w.s.f.dead && c != PowerUp
    ensures Enabled(w, Begin(c))
    ensures Enabled(Next(w, Begin(c)), Begin(d)) <==>
            d != PowerUp
            && (Program(w.s.f.cfg, w.s.f.role, c) == [] || (c in {LinkUp, LinkDown} <==> d !in {LinkUp, LinkDown}))
  {
  }
}
