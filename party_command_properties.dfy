/** What PartyCommand.run guarantees, stated over its meaning `Dispatch`:
    one lemma per guard and effect, the frame of what it may write, and how
    consecutive commands of one caller interact. */
module PartyCommandProperties {
  import opened Entities
  import opened MMOParties
  import opened PartyCommand

  /** The call got past the offline-target check and the client-side check. */
  predicate Reaches(req: Request, host: Host) {
    !(req.targetStr.Some? && req.target.None?) && !host.clientSide
  }

  /** The verbs whose paths dereference the caller's PlayerStats. */
  predicate DerefsStats(req: Request, host: Host) {
    match VerbOf(req.sub)
    case Tp => host.allowPartyTP
    case Invite => req.targetStr.Some?
    case Accept => true
    case Deny => true
    case Leave => true
    case Leader => true
    case Disband => true
    case _ => false
  }

  /** The party the caller is in, if the caller is registered and in one. */
  function CallerParty(w: World, req: Request): Option<PartyRef>
    requires Valid(w)
  {
    match CallerStats(w, req)
    case None => None
    case Some(s) => w.stats[s].party
  }

  /** Only the error is sent and nothing else changes. */
  predicate Rejected(w: World, st: Step) {
    st == Step(Returned(0), Say(w, SendError))
  }

  // ---- every path -------------------------------------------------------

  /** A named player who is not online: one error, return 0, no change,
      whatever the verb. */
  lemma OfflineTargetRejected(w: World, req: Request, host: Host)
    requires Valid(w)
    requires req.targetStr.Some? && req.target.None?
    ensures Rejected(w, Dispatch(w, req, host))
  {
  }

  /** On the client side nothing at all happens. */
  lemma ClientSideIgnored(w: World, req: Request, host: Host)
    requires Valid(w)
    requires !(req.targetStr.Some? && req.target.None?) && host.clientSide
    ensures Dispatch(w, req, host) == Step(Returned(0), w)
  {
  }

  /** Every path that returns returns 0; the only other outcome is the
      exception of a verb that dereferences the stats of an unregistered
      caller, and it changes nothing. */
  lemma ReturnsZeroOrThrows(w: World, req: Request, host: Host)
    requires Valid(w)
    ensures Dispatch(w, req, host).outcome.Returned? ==> Dispatch(w, req, host).outcome.code == 0
    ensures Dispatch(w, req, host).outcome.Threw? <==>
      Reaches(req, host) && CallerStats(w, req).None? && DerefsStats(req, host)
    ensures Dispatch(w, req, host).outcome.Threw? ==> Dispatch(w, req, host).world == w
  {
  }

  /** `run` keeps every reference valid, never touches the registry or the
      set of objects, only appends to the log, and writes at most the
      caller's own PlayerStats and the leader of the caller's party. */
  lemma Frame(w: World, req: Request, host: Host)
    requires Valid(w)
    ensures var w' := Dispatch(w, req, host).world;
      Valid(w') &&
      w'.registry == w.registry &&
      w'.stats.Keys == w.stats.Keys &&
      w'.leaders.Keys == w.leaders.Keys &&
      w.log <= w'.log &&
      (forall s :: s in w.stats && CallerStats(w, req) != Some(s) ==> w'.stats[s] == w.stats[s]) &&
      (forall p :: p in w.leaders && CallerParty(w, req) != Some(p) ==> w'.leaders[p] == w.leaders[p])
  {
    SplitByVerb(w, req, host);
  }


  /** Dispatch path by path, as the four kinds of new state it can produce:
      untouched but for the log, the caller's invite cleared, the caller's
      party cleared, or its party's leader replaced. */
  lemma SplitByVerb(w: World, req: Request, host: Host)
    requires Valid(w)
    ensures var st := Dispatch(w, req, host);
      var v := VerbOf(req.sub);
      var found := CallerStats(w, req);
      (st.world.stats == w.stats && st.world.leaders == w.leaders && st.world.registry == w.registry) ||
      (Reaches(req, host) && v == Deny && found.Some? &&
        st.world == w.(stats := w.stats[found.value := w.stats[found.value].(partyInvite := None)], log := w.log + [SendInfo])) ||
      (Reaches(req, host) && v == Leave && found.Some? && w.stats[found.value].party.Some? &&
        st.world == w.(stats := w.stats[found.value := w.stats[found.value].(party := None)],
                       log := w.log + [LeaveParty(w.stats[found.value].party.value, req.caller), SendInfo])) ||
      (Reaches(req, host) && v == Leader && found.Some? && CallerParty(w, req).Some? &&
        IsLeader(w, CallerParty(w, req).value, req.caller) && req.targetStr.Some? &&
        st.world == w.(leaders := w.leaders[CallerParty(w, req).value := req.target],
                       log := w.log + [BroadcastToParty(CallerParty(w, req).value)]))
  {
  }

  // ---- tp ---------------------------------------------------------------

  /** With teleporting disallowed, tp is rejected before the caller's stats
      are even looked at (so also for a caller in no party or unregistered). */
  lemma TpDisallowed(w: World, req: Request, host: Host)
    requires Valid(w) && Reaches(req, host) && req.sub == "tp"
    requires !host.allowPartyTP
    ensures Rejected(w, Dispatch(w, req, host))
  {
  }

  lemma TpOutsideParty(w: World, req: Request, host: Host, s: StatsRef)
    requires Valid(w) && Reaches(req, host) && req.sub == "tp" && host.allowPartyTP
    requires CallerStats(w, req) == Some(s) && !w.stats[s].InParty()
    ensures Rejected(w, Dispatch(w, req, host))
  {
  }

  /** Allowed and in a party: exactly one teleport call on the caller's
      party, and no other change. */
  lemma TpTeleports(w: World, req: Request, host: Host, p: PartyRef)
    requires Valid(w) && Reaches(req, host) && req.sub == "tp" && host.allowPartyTP
    requires CallerParty(w, req) == Some(p)
    ensures Dispatch(w, req, host) == Step(Returned(0), Say(w, TeleportInParty(p, req.caller, req.target)))
  {
  }

  // ---- create -----------------------------------------------------------

  /** create always hands over to Party.Create, whatever the caller's state
      (already in a party, or not even registered). */
  lemma CreateUnguarded(w: World, req: Request, host: Host)
    requires Valid(w) && Reaches(req, host) && req.sub == "create"
    ensures Dispatch(w, req, host) == Step(Returned(0), Say(w, CreateParty(req.caller)))
  {
  }

  // ---- invite -----------------------------------------------------------

  /** Without a player argument invite errors before any party is created. */
  lemma InviteWithoutTarget(w: World, req: Request, host: Host)
    requires Valid(w) && Reaches(req, host) && req.sub == "invite"
    requires req.targetStr.None?
    ensures Rejected(w, Dispatch(w, req, host))
  {
  }

  /** Not in a party: a party is created first, then the invite is sent. */
  lemma InviteCreatesParty(w: World, req: Request, host: Host, s: StatsRef)
    requires Valid(w) && Reaches(req, host) && req.sub == "invite" && req.targetStr.Some?
    requires CallerStats(w, req) == Some(s) && !w.stats[s].InParty()
    ensures req.target.Some?
    ensures Dispatch(w, req, host) ==
      Step(Returned(0), w.(log := w.log + [CreateParty(req.caller), InviteToParty(None, req.caller, req.target.value)]))
  {
  }

  /** Already in party p: only the invite, issued on p. */
  lemma InviteFromParty(w: World, req: Request, host: Host, p: PartyRef)
    requires Valid(w) && Reaches(req, host) && req.sub == "invite" && req.targetStr.Some?
    requires CallerParty(w, req) == Some(p)
    ensures req.target.Some?
    ensures Dispatch(w, req, host) == Step(Returned(0), Say(w, InviteToParty(Some(p), req.caller, req.target.value)))
  {
  }

  // ---- accept / deny ----------------------------------------------------

  lemma AcceptWithoutInvite(w: World, req: Request, host: Host, s: StatsRef)
    requires Valid(w) && Reaches(req, host) && req.sub == "accept"
    requires CallerStats(w, req) == Some(s) && w.stats[s].partyInvite.None?
    ensures Rejected(w, Dispatch(w, req, host))
  {
  }

  /** accept hands over to Join on the inviting party, changing nothing here. */
  lemma AcceptJoins(w: World, req: Request, host: Host, s: StatsRef, q: PartyRef)
    requires Valid(w) && Reaches(req, host) && req.sub == "accept"
    requires CallerStats(w, req) == Some(s) && w.stats[s].partyInvite == Some(q)
    ensures Dispatch(w, req, host) == Step(Returned(0), Say(w, JoinParty(q, req.caller)))
  {
  }

  lemma DenyWithoutInvite(w: World, req: Request, host: Host, s: StatsRef)
    requires Valid(w) && Reaches(req, host) && req.sub == "deny"
    requires CallerStats(w, req) == Some(s) && w.stats[s].partyInvite.None?
    ensures Rejected(w, Dispatch(w, req, host))
  {
  }

  /** deny clears the invite and only the invite: the caller's party, every
      other PlayerStats and every leader stay as they were. */
  lemma DenyClearsInvite(w: World, req: Request, host: Host, s: StatsRef)
    requires Valid(w) && Reaches(req, host) && req.sub == "deny"
    requires CallerStats(w, req) == Some(s) && w.stats[s].partyInvite.Some?
    ensures var st := Dispatch(w, req, host);
      st.outcome == Returned(0) &&
      st.world.stats[s].partyInvite.None? &&
      st.world.stats[s].party == w.stats[s].party &&
      (forall t :: t in w.stats && t != s ==> st.world.stats[t] == w.stats[t]) &&
      st.world.leaders == w.leaders &&
      st.world.log == w.log + [SendInfo]
  {
  }

  // ---- leave ------------------------------------------------------------

  lemma LeaveOutsideParty(w: World, req: Request, host: Host, s: StatsRef)
    requires Valid(w) && Reaches(req, host) && req.sub == "leave"
    requires CallerStats(w, req) == Some(s) && !w.stats[s].InParty()
    ensures Rejected(w, Dispatch(w, req, host))
  {
  }

  /** leave calls Leave on the caller's party, then clears the caller's party
      reference: afterwards the caller is in no party. */
  lemma LeaveClearsParty(w: World, req: Request, host: Host, p: PartyRef)
    requires Valid(w) && Reaches(req, host) && req.sub == "leave"
    requires CallerParty(w, req) == Some(p)
    ensures var st := Dispatch(w, req, host);
      st.outcome == Returned(0) &&
      CallerParty(st.world, req).None? &&
      st.world.log == w.log + [LeaveParty(p, req.caller), SendInfo] &&
      st.world.leaders == w.leaders &&
      (forall s :: s in w.stats ==> st.world.stats[s].partyInvite == w.stats[s].partyInvite)
  {
  }

  // ---- leader -----------------------------------------------------------

  /** A fully guarded promotion makes the target the leader of the caller's
      party; the target's own membership is not checked. */
  lemma LeaderPromotes(w: World, req: Request, host: Host, p: PartyRef)
    requires Valid(w) && Reaches(req, host) && req.sub == "leader"
    requires CallerParty(w, req) == Some(p) && IsLeader(w, p, req.caller)
    requires req.targetStr.Some?
    ensures req.target.Some?
    ensures Dispatch(w, req, host) ==
      Step(Returned(0), Say(w.(leaders := w.leaders[p := req.target]), BroadcastToParty(p)))
  {
  }

  /** The guards in order (in a party, then the leader, then a target given):
      any failure is one error and leaves every leader unchanged. */
  lemma LeaderRejected(w: World, req: Request, host: Host, s: StatsRef)
    requires Valid(w) && Reaches(req, host) && req.sub == "leader"
    requires CallerStats(w, req) == Some(s)
    requires !w.stats[s].InParty() || !IsLeader(w, w.stats[s].party.value, req.caller) || req.targetStr.None?
    ensures Rejected(w, Dispatch(w, req, host))
  {
  }

  // ---- disband ----------------------------------------------------------

  lemma DisbandByLeader(w: World, req: Request, host: Host, p: PartyRef)
    requires Valid(w) && Reaches(req, host) && req.sub == "disband"
    requires CallerParty(w, req) == Some(p) && IsLeader(w, p, req.caller)
    ensures Dispatch(w, req, host) == Step(Returned(0), Say(w, DisbandParty(p)))
  {
  }

  lemma DisbandRejected(w: World, req: Request, host: Host, s: StatsRef)
    requires Valid(w) && Reaches(req, host) && req.sub == "disband"
    requires CallerStats(w, req) == Some(s)
    requires !w.stats[s].InParty() || !IsLeader(w, w.stats[s].party.value, req.caller)
    ensures Rejected(w, Dispatch(w, req, host))
  {
  }

  // ---- gui and unknown verbs ---------------------------------------------

  lemma InertVerbs(w: World, req: Request, host: Host)
    requires Valid(w) && Reaches(req, host)
    requires VerbOf(req.sub) == Gui || VerbOf(req.sub) == Unrecognised
    ensures Dispatch(w, req, host) == Step(Returned(0), w)
  {
  }

  // ---- who can cause what, across all verbs ------------------------------

  /** Whatever the verb, a Disband call for party p is made only by the
      `disband` verb from a caller who is in p and is its leader. */
  lemma OnlyLeaderDisbands(w: World, req: Request, host: Host, p: PartyRef)
    requires Valid(w)
    ensures var w' := Dispatch(w, req, host).world;
      DisbandParty(p) in w'.log[|w.log|..] ==>
        req.sub == "disband" && CallerParty(w, req) == Some(p) && IsLeader(w, p, req.caller)
  {
    // Split the verbs into groups small enough for the solver to unfold
    // Dispatch on each.
    if Reaches(req, host) {
      var v := VerbOf(req.sub);
      if v == Tp || v == Create || v == Invite || v == Accept {
      } else if v == Deny || v == Leave {
      } else if v == Leader {
      } else {
      }
    }
  }

  /** Whatever the verb: a leader changes only by `leader` from the old
      leader, an invite is cleared only by `deny`, and a party reference is
      cleared only by `leave`, each on the caller's own objects. */
  lemma OnlyAuthorisedWrites(w: World, req: Request, host: Host, p: PartyRef)
    requires Valid(w)
    ensures var w' := Dispatch(w, req, host).world;
      (p in w.leaders && w'.leaders[p] != w.leaders[p] ==>
        req.sub == "leader" && CallerParty(w, req) == Some(p) && IsLeader(w, p, req.caller) &&
        w'.leaders[p] == req.target)
    ensures var w' := Dispatch(w, req, host).world;
      (forall s :: s in w.stats && w'.stats[s].partyInvite != w.stats[s].partyInvite ==>
        req.sub == "deny" && CallerStats(w, req) == Some(s))
    ensures var w' := Dispatch(w, req, host).world;
      (forall s :: s in w.stats && w'.stats[s].party != w.stats[s].party ==>
        req.sub == "leave" && CallerStats(w, req) == Some(s))
  {
    SplitByVerb(w, req, host);
  }

  // ---- consecutive commands ----------------------------------------------

  /** After a successful deny, accepting has nothing left to accept. */
  lemma DenyThenAccept(w: World, req: Request, host: Host, s: StatsRef)
    requires Valid(w) && Reaches(req, host) && req.sub == "deny"
    requires CallerStats(w, req) == Some(s) && w.stats[s].partyInvite.Some?
    ensures var w1 := Dispatch(w, req, host).world;
      Valid(w1) && Rejected(w1, Dispatch(w1, req.(sub := "accept"), host))
  {
  }

  /** After a successful leave, leaving again, teleporting, promoting and
      disbanding are all rejected. */
  lemma LeaveThenPartyVerbs(w: World, req: Request, host: Host, p: PartyRef, verb: string)
    requires Valid(w) && Reaches(req, host) && req.sub == "leave"
    requires CallerParty(w, req) == Some(p)
    requires verb in {"leave", "leader", "disband"} || (verb == "tp" && host.allowPartyTP)
    ensures var w1 := Dispatch(w, req, host).world;
      Valid(w1) && Rejected(w1, Dispatch(w1, req.(sub := verb), host))
  {
  }

  /** Once the leader hands leadership to another player, the former leader
      can neither disband the party nor promote again. */
  lemma PromoteThenFormerLeader(w: World, req: Request, host: Host, p: PartyRef, verb: string)
    requires Valid(w) && Reaches(req, host) && req.sub == "leader" && req.targetStr.Some?
    requires CallerParty(w, req) == Some(p) && IsLeader(w, p, req.caller)
    requires req.target.Some? && !SameEntity(req.target.value, req.caller)
    requires verb in {"leader", "disband"}
    ensures var w1 := Dispatch(w, req, host).world;
      Valid(w1) && Rejected(w1, Dispatch(w1, req.(sub := verb), host))
  {
  }
}
