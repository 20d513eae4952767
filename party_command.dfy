/** PartyCommand.run: the `/party <verb> [player]` dispatcher. It checks its
    guards in a fixed order and either reports an error, or changes the
    caller's PlayerStats / its party's leader directly, or hands the work to
    a Party operation. Party operations live outside this model: each call is
    recorded in the log and has no other effect here. */
module PartyCommand {
  import opened Entities
  import MMOParties

  /** The verbs `run` switches on; every other string is Unrecognised. */
  datatype Verb = Tp | Create | Invite | Accept | Deny | Leave | Leader | Disband | Gui | Unrecognised

  /** The exact spelling of a recognised verb. */
  function Keyword(v: Verb): string
    requires !v.Unrecognised?
  {
    match v
    case Tp => "tp"
    case Create => "create"
    case Invite => "invite"
    case Accept => "accept"
    case Deny => "deny"
    case Leave => "leave"
    case Leader => "leader"
    case Disband => "disband"
    case Gui => "gui"
  }

  /** The case of the string switch that `sub` selects (exact match). */
  function VerbOf(sub: string): (v: Verb)
    ensures !v.Unrecognised? ==> Keyword(v) == sub
    ensures v.Unrecognised? <==> sub !in {"tp", "create", "invite", "accept", "deny", "leave", "leader", "disband", "gui"}
  {
    if sub == "tp" then Tp
    else if sub == "create" then Create
    else if sub == "invite" then Invite
    else if sub == "accept" then Accept
    else if sub == "deny" then Deny
    else if sub == "leave" then Leave
    else if sub == "leader" then Leader
    else if sub == "disband" then Disband
    else if sub == "gui" then Gui
    else Unrecognised
  }

  /** What `run` sends or calls. Messages are kept only as error or info.
      An invite names the party it is issued on when the caller was already
      in one; None stands for the party the preceding CreateParty made. */
  datatype Event =
    | SendError
    | SendInfo
    | CreateParty(founder: Player)
    | InviteToParty(receiver: Option<PartyRef>, inviter: Player, invitee: Player)
    | JoinParty(party: PartyRef, joiner: Player)
    | LeaveParty(party: PartyRef, leaver: Player)
    | DisbandParty(party: PartyRef)
    | TeleportInParty(party: PartyRef, requester: Player, target: Option<Player>)
    | BroadcastToParty(party: PartyRef)

  /** The state `run` reads and writes: the registry, the PlayerStats objects,
      the `leader` field of every Party object, and the log of what was sent
      or called so far. */
  datatype World = World(
    registry: seq<Entry>,
    stats: map<StatsRef, Stats>,
    leaders: map<PartyRef, Option<Player>>,
    log: seq<Event>)

  /** Every reference the state holds points at an existing object. */
  ghost predicate Valid(w: World) {
    (forall e :: e in w.registry ==> e.stats in w.stats) &&
    (forall s :: s in w.stats && w.stats[s].party.Some? ==> w.stats[s].party.value in w.leaders) &&
    (forall s :: s in w.stats && w.stats[s].partyInvite.Some? ==> w.stats[s].partyInvite.value in w.leaders)
  }

  /** One command: the caller, the verb string, the optional player-name
      argument and what the online-player lookup returned for it. */
  datatype Request = Request(caller: Player, sub: string, targetStr: Option<string>, target: Option<Player>)

  /** The host facts `run` consults: whether the caller's world is the client
      side, and the allowPartyTP configuration flag. */
  datatype Host = Host(clientSide: bool, allowPartyTP: bool)

  /** `run` either returns an int or throws (a NullPointerException from
      dereferencing the stats of a caller the registry does not know). */
  datatype Outcome = Returned(code: int) | Threw

  datatype Step = Step(outcome: Outcome, world: World)

  function Say(w: World, e: Event): World {
    w.(log := w.log + [e])
  }

  /** Java's `stats.party.leader != player`, negated. */
  predicate IsLeader(w: World, p: PartyRef, player: Player)
    requires p in w.leaders
  {
    w.leaders[p].Some? && SameEntity(w.leaders[p].value, player)
  }

  /** The caller's PlayerStats reference, as MMOParties.GetStats finds it. */
  function CallerStats(w: World, req: Request): Option<StatsRef> {
    MMOParties.Lookup(w.registry, req.caller.name)
  }

  /** The meaning of one `run` call. */
  function Dispatch(w: World, req: Request, host: Host): Step
    requires Valid(w)
  {
    if req.targetStr.Some? && req.target.None? then Step(Returned(0), Say(w, SendError))
    else if host.clientSide then Step(Returned(0), w)
    else
      var found := CallerStats(w, req);
      match VerbOf(req.sub)
      case Tp =>
        if !host.allowPartyTP then Step(Returned(0), Say(w, SendError))
        else if found.None? then Step(Threw, w)
        else if !w.stats[found.value].InParty() then Step(Returned(0), Say(w, SendError))
        else Step(Returned(0), Say(w, TeleportInParty(w.stats[found.value].party.value, req.caller, req.target)))
      case Create =>
        Step(Returned(0), Say(w, CreateParty(req.caller)))
      case Invite =>
        if req.targetStr.None? then Step(Returned(0), Say(w, SendError))
        else if found.None? then Step(Threw, w)
        else if !w.stats[found.value].InParty() then
          Step(Returned(0), Say(Say(w, CreateParty(req.caller)), InviteToParty(None, req.caller, req.target.value)))
        else Step(Returned(0), Say(w, InviteToParty(w.stats[found.value].party, req.caller, req.target.value)))
      case Accept =>
        if found.None? then Step(Threw, w)
        else if w.stats[found.value].partyInvite.None? then Step(Returned(0), Say(w, SendError))
        else Step(Returned(0), Say(w, JoinParty(w.stats[found.value].partyInvite.value, req.caller)))
      case Deny =>
        if found.None? then Step(Threw, w)
        else if w.stats[found.value].partyInvite.None? then Step(Returned(0), Say(w, SendError))
        else
          var s := found.value;
          Step(Returned(0), Say(w.(stats := w.stats[s := w.stats[s].(partyInvite := None)]), SendInfo))
      case Leave =>
        if found.None? then Step(Threw, w)
        else if !w.stats[found.value].InParty() then Step(Returned(0), Say(w, SendError))
        else
          var s := found.value;
          var called := Say(w, LeaveParty(w.stats[s].party.value, req.caller));
          Step(Returned(0), Say(called.(stats := w.stats[s := w.stats[s].(party := None)]), SendInfo))
      case Leader =>
        if found.None? then Step(Threw, w)
        else if !w.stats[found.value].InParty() then Step(Returned(0), Say(w, SendError))
        else if !IsLeader(w, w.stats[found.value].party.value, req.caller) then Step(Returned(0), Say(w, SendError))
        else if req.targetStr.None? then Step(Returned(0), Say(w, SendError))
        else
          var p := w.stats[found.value].party.value;
          Step(Returned(0), Say(w.(leaders := w.leaders[p := req.target]), BroadcastToParty(p)))
      case Disband =>
        if found.None? then Step(Threw, w)
        else if !w.stats[found.value].InParty() then Step(Returned(0), Say(w, SendError))
        else if !IsLeader(w, w.stats[found.value].party.value, req.caller) then Step(Returned(0), Say(w, SendError))
        else Step(Returned(0), Say(w, DisbandParty(w.stats[found.value].party.value)))
      case Gui => Step(Returned(0), w)
      case Unrecognised => Step(Returned(0), w)
  }

  /** PartyCommand.run, step by step with its early returns. */
  method Run(w: World, req: Request, host: Host) returns (outcome: Outcome, w': World)
    requires Valid(w)
    ensures Step(outcome, w') == Dispatch(w, req, host)
    ensures Valid(w')
    ensures outcome.Returned? ==> outcome.code == 0
  {
    w' := w;
    if req.targetStr.Some? && req.target.None? {
      w' := Say(w', SendError);
      return Returned(0), w';
    }
    if host.clientSide {
      return Returned(0), w';
    }
    var found := MMOParties.GetStats(w.registry, req.caller);
    match VerbOf(req.sub) {
      case Tp =>
        if !host.allowPartyTP {
          w' := Say(w', SendError);
          return Returned(0), w';
        }
        if found.None? {
          return Threw, w;
        }
        var stats := w'.stats[found.value];
        if !stats.InParty() {
          w' := Say(w', SendError);
          return Returned(0), w';
        }
        w' := Say(w', TeleportInParty(stats.party.value, req.caller, req.target));
      case Create =>
        w' := Say(w', CreateParty(req.caller));
      case Invite =>
        if req.targetStr.None? {
          w' := Say(w', SendError);
          return Returned(0), w';
        }
        if found.None? {
          return Threw, w;
        }
        var receiver := w'.stats[found.value].party;
        if !w'.stats[found.value].InParty() {
          w' := Say(w', CreateParty(req.caller));
        }
        w' := Say(w', InviteToParty(receiver, req.caller, req.target.value));
      case Accept =>
        if found.None? {
          return Threw, w;
        }
        var stats := w'.stats[found.value];
        if stats.partyInvite.None? {
          w' := Say(w', SendError);
          return Returned(0), w';
        }
        w' := Say(w', JoinParty(stats.partyInvite.value, req.caller));
      case Deny =>
        if found.None? {
          return Threw, w;
        }
        var s := found.value;
        if w'.stats[s].partyInvite.None? {
          w' := Say(w', SendError);
          return Returned(0), w';
        }
        w' := w'.(stats := w'.stats[s := w'.stats[s].(partyInvite := None)]);
        w' := Say(w', SendInfo);
      case Leave =>
        if found.None? {
          return Threw, w;
        }
        var s := found.value;
        if !w'.stats[s].InParty() {
          w' := Say(w', SendError);
          return Returned(0), w';
        }
        w' := Say(w', LeaveParty(w'.stats[s].party.value, req.caller));
        w' := w'.(stats := w'.stats[s := w'.stats[s].(party := None)]);
        w' := Say(w', SendInfo);
      case Leader =>
        if found.None? {
          return Threw, w;
        }
        var stats := w'.stats[found.value];
        if !stats.InParty() {
          w' := Say(w', SendError);
          return Returned(0), w';
        }
        var p := stats.party.value;
        if !IsLeader(w', p, req.caller) {
          w' := Say(w', SendError);
          return Returned(0), w';
        }
        if req.targetStr.None? {
          w' := Say(w', SendError);
          return Returned(0), w';
        }
        w' := w'.(leaders := w'.leaders[p := req.target]);
        w' := Say(w', BroadcastToParty(p));
      case Disband =>
        if found.None? {
          return Threw, w;
        }
        var stats := w'.stats[found.value];
        if !stats.InParty() {
          w' := Say(w', SendError);
          return Returned(0), w';
        }
        if !IsLeader(w', stats.party.value, req.caller) {
          w' := Say(w', SendError);
          return Returned(0), w';
        }
        w' := Say(w', DisbandParty(stats.party.value));
      case Gui =>
      case Unrecognised =>
    }
    outcome := Returned(0);
  }
}
