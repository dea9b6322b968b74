/** The table of LAN clients and their session tokens (internal/network/lan_clients.go). Each operation is one atomic
    step; tokens and row ids arrive as fresh values. */
module LanSessions {
  datatype ClientStatus = Active | Suspended

  datatype Client = Client(
    deviceId: string, deviceName: string, ip: string, connectedAt: int, lastActivity: int, status: ClientStatus,
        token: string)

  /** `blocked` maps row ids to device ids or addresses; `issued` holds every token ever handed out. */
  datatype Table = Table(clients: map<string, Client>, blocked: map<nat, string>, issued: set<string>)

  datatype Refusal = InvalidDevice | LookupFailed | DeviceBlocked | DeviceSuspended | TableFull | NoRandomness
                   | WrongHost | SessionSuspended | SessionExpired | UnknownToken | NotConnected
                   | StoreFailed | NoSuchRow

  datatype Reply<+T> = Granted(value: T) | Refused(reason: Refusal)

  const MAX_CLIENTS: nat := 30
  const IDLE_LIMIT: int := 12 * 3600

  // ----- what one step does -----

  datatype Op =
    | Register(device: string, name: string, ip: string, now: int, token: string,
               lookupFails: bool, ipLookupFails: bool, noRandomness: bool)
    | Touch(token: string, now: int)
    | Disconnect(device: string)
    | Suspend(device: string)
    | Resume(device: string)
    | Block(device: string, row: nat, storeFails: bool)
    | Unblock(row: nat)
    | Cleanup(now: int, maxInactive: int)
    | Clear

  predicate Admitted(t: Table, op: Op)
    requires op.Register?
  {
    && op.device != "" && op.name != ""
    && !op.lookupFails && op.device !in t.blocked.Values
    && (op.ip == "" || op.ipLookupFails || op.ip !in t.blocked.Values)
    && (op.device in t.clients ==> t.clients[op.device].status == Active)
    && (op.device in t.clients || |t.clients| < MAX_CLIENTS)
    && !op.noRandomness
  }

  /** The new entry replaces any earlier one of the device. */
  function Newcomer(op: Op): Client
    requires op.Register?
  {
    Client(op.device, op.name, op.ip, op.now, op.now, Active, op.token)
  }

  function Touched(c: Client, token: string, now: int): Client
  {
    if c.token == token && now - c.lastActivity > 10 then c.(lastActivity := now) else c
  }

  function WithStatus(clients: map<string, Client>, device: string, status: ClientStatus): map<string, Client>
  {
    if device in clients then clients[device := clients[device].(status := status)] else clients
  }

  function Without(clients: map<string, Client>, device: string): map<string, Client>
  {
    map d | d in clients && d != device :: clients[d]
  }

  function Kept(clients: map<string, Client>, now: int, maxInactive: int): map<string, Client>
  {
    map d | d in clients && IdleAtMost(clients[d], now, maxInactive) :: clients[d]
  }

  predicate IdleAtMost(c: Client, now: int, seconds: int) { now - c.lastActivity <= seconds }

  function Step(t: Table, op: Op): Table
  {
    match op
    case Register(device, _, _, _, token, _, _, _) =>
      if Admitted(t, op) then t.(clients := t.clients[device := Newcomer(op)], issued := t.issued + {token}) else t
    case Touch(token, now) => t.(clients := map d | d in t.clients :: Touched(t.clients[d], token, now))
    case Disconnect(device) => t.(clients := Without(t.clients, device))
    case Suspend(device) => t.(clients := WithStatus(t.clients, device, Suspended))
    case Resume(device) => t.(clients := WithStatus(t.clients, device, Active))
    case Block(device, row, storeFails) =>
      var u := t.(clients := Without(t.clients, device));
      if storeFails || device in t.blocked.Values then u else u.(blocked := t.blocked[row := device])
    case Unblock(row) => t.(blocked := t.blocked - {row})
    case Cleanup(now, maxInactive) => t.(clients := Kept(t.clients, now, maxInactive))
    case Clear => t.(clients := map[])
  }

  /** Tokens are never issued twice and never empty; rows get a new id. */
  predicate FreshOp(t: Table, op: Op)
  {
    && (op.Register? ==> op.token != "" && op.token !in t.issued)
    && (op.Block? ==> op.row !in t.blocked)
  }

  /** A device that gives its id and name is let in when its lookup works, neither it nor its known address is blocked,
      it is not suspended, and it is on the table already or fewer than thirty are. Its entry then starts anew. */
  lemma RegistersIff(t: Table, op: Op)
    requires op.Register?
    ensures Admitted(t, op) <==>
              && op.device != "" && op.name != "" && !op.lookupFails && !op.noRandomness
              && (forall row :: row in t.blocked ==>
                   t.blocked[row] != op.device && (t.blocked[row] == op.ip ==> op.ip == "" || op.ipLookupFails))
              && (if op.device in t.clients then t.clients[op.device].status != Suspended else |t.clients| < 30)
    ensures Step(t, op) ==
              if !Admitted(t, op) then t
              else Table(t.clients[op.device := Client(op.device, op.name, op.ip, op.now, op.now, Active, op.token)],
                         t.blocked, t.issued + {op.token})
  {
    if op.device in t.blocked.Values {
      var row :| row in t.blocked && t.blocked[row] == op.device;
    }
    if op.ip in t.blocked.Values {
      var row :| row in t.blocked && t.blocked[row] == op.ip;
    }
  }

  // ----- the invariant -----

  /** At most 30 entries, each under its own device id, with issued and pairwise distinct tokens, and no blocked
      device. */
  ghost predicate TableOk(t: Table)
  {
    && |t.clients| <= MAX_CLIENTS
    && (forall d :: d in t.clients ==> EntryOk(t, d))
    && (forall d, e :: d in t.clients && e in t.clients && d != e ==> t.clients[d].token != t.clients[e].token)
  }

  predicate EntryOk(t: Table, d: string)
    requires d in t.clients
  {
    var c := t.clients[d];
    c.deviceId == d && d != "" && c.deviceName != "" && c.token != "" && c.token in t.issued && d !in t.blocked.Values
  }

  lemma FewerClients(small: map<string, Client>, big: map<string, Client>)
    requires forall d :: d in small ==> d in big
    ensures |small| <= |big|
  {
    Subset(small.Keys, big.Keys);
    assert |small| == |small.Keys| && |big| == |big.Keys|;
  }

  lemma Subset(a: set<string>, b: set<string>)
    requires a <= b
    ensures |a| <= |b|
  {
    if a != {} {
      var x :| x in a;
      Subset(a - {x}, b - {x});
    }
  }

  /** Apart from an admitted registration, no step adds an entry, changes its identity or blocks one that stays. */
  lemma EntriesOnlyGo(t: Table, op: Op, d: string)
    requires !(op.Register? && Admitted(t, op)) && d in Step(t, op).clients
    ensures d in t.clients
    ensures var c, u := t.clients[d], Step(t, op);
            u.clients[d] == c.(lastActivity := u.clients[d].lastActivity, status := u.clients[d].status)
    ensures Step(t, op).issued == t.issued && (d !in t.blocked.Values ==> d !in Step(t, op).blocked.Values)
  {
    var u := Step(t, op);
    if op.Unblock? { assert u.blocked.Values <= t.blocked.Values; }
    if op.Block? { assert u.blocked.Values <= t.blocked.Values + {op.device}; }
  }

  lemma NewcomerKeepsOk(t: Table, c: Client)
    requires TableOk(t) && c.token != "" && c.token !in t.issued
    requires c.deviceId != "" && c.deviceName != "" && c.deviceId !in t.blocked.Values
    requires c.deviceId in t.clients || |t.clients| < MAX_CLIENTS
    ensures TableOk(Table(t.clients[c.deviceId := c], t.blocked, t.issued + {c.token}))
  {
    assert forall d :: d in t.clients ==> t.clients[d].token in t.issued by {
      forall d | d in t.clients ensures t.clients[d].token in t.issued { assert EntryOk(t, d); }
    }
    hide EntryOk;
    var u := Table(t.clients[c.deviceId := c], t.blocked, t.issued + {c.token});
    assert u.clients.Keys == t.clients.Keys + {c.deviceId};
    assert |u.clients| == |u.clients.Keys| && |t.clients| == |t.clients.Keys|;
    NewcomerEntriesOk(t, c);
  }

  lemma NewcomerEntriesOk(t: Table, c: Client)
    requires (forall d :: d in t.clients ==> EntryOk(t, d)) && c.token != ""
    requires c.deviceId != "" && c.deviceName != "" && c.deviceId !in t.blocked.Values
    ensures var u := Table(t.clients[c.deviceId := c], t.blocked, t.issued + {c.token});
            forall d :: d in u.clients ==> EntryOk(u, d)
  {
    var u := Table(t.clients[c.deviceId := c], t.blocked, t.issued + {c.token});
    forall d | d in u.clients ensures EntryOk(u, d) {
      if d != c.deviceId { assert EntryOk(t, d); }
    }
  }

  lemma StepKeepsOk(t: Table, op: Op)
    requires TableOk(t) && FreshOp(t, op)
    ensures TableOk(Step(t, op))
  {
    if op.Register? && Admitted(t, op) {
      NewcomerKeepsOk(t, Newcomer(op));
    } else {
      var u := Step(t, op);
      forall d | d in u.clients ensures d in t.clients && u.clients[d].token == t.clients[d].token && EntryOk(u, d) {
        EntriesOnlyGo(t, op, d);
        assert EntryOk(t, d);
      }
      FewerClients(u.clients, t.clients);
    }
  }

  // ----- which token is good -----

  predicate Loopback(ip: string) { ip == "127.0.0.1" || ip == "::1" || ip == "localhost" }

  predicate SameHost(ip: string, request: string)
  {
    request == "" || ip == request || (Loopback(ip) && Loopback(request))
  }

  predicate Usable(c: Client, request: string, now: int)
  {
    SameHost(c.ip, request) && c.status == Active && now - c.lastActivity <= IDLE_LIMIT
  }

  ghost predicate Validates(t: Table, token: string, request: string, now: int)
  {
    exists d :: d in t.clients && t.clients[d].token == token && Usable(t.clients[d], request, now)
  }

  // ----- runs -----

  ghost function Run(t: Table, ops: seq<Op>): Table
  {
    if ops == [] then t else Step(Run(t, ops[..|ops| - 1]), ops[|ops| - 1])
  }

  ghost predicate FreshRun(t: Table, ops: seq<Op>)
  {
    forall k :: 0 <= k < |ops| ==> FreshOp(Run(t, ops[..k]), ops[k])
  }

  lemma RunSplit(t: Table, ops: seq<Op>)
    requires ops != [] && FreshRun(t, ops)
    ensures var init := ops[..|ops| - 1];
            FreshRun(t, init) && FreshOp(Run(t, init), ops[|ops| - 1])
                && Run(t, ops) == Step(Run(t, init), ops[|ops| - 1])
  {
    var init := ops[..|ops| - 1];
    forall k | 0 <= k < |init| ensures FreshOp(Run(t, init[..k]), init[k]) {
      assert init[..k] == ops[..k];
    }
  }

  lemma {:induction false} RunKeepsOk(t: Table, ops: seq<Op>)
    requires TableOk(t) && FreshRun(t, ops)
    ensures TableOk(Run(t, ops)) && |Run(t, ops).clients| <= 30
  {
    if ops != [] {
      RunSplit(t, ops);
      RunKeepsOk(t, ops[..|ops| - 1]);
      StepKeepsOk(Run(t, ops[..|ops| - 1]), ops[|ops| - 1]);
    }
  }

  /** The step takes `d`'s entry away or replaces it. */
  predicate Ends(t: Table, op: Op, d: string)
  {
    match op
    case Register(device, _, _, _, _, _, _, _) => device == d && Admitted(t, op)
    case Disconnect(device) => device == d
    case Block(device, _, _) => device == d
    case Cleanup(now, maxInactive) => d in t.clients && now - t.clients[d].lastActivity > maxInactive
    case Clear => true
    case Touch(_, _) => false
    case Suspend(_) => false
    case Resume(_) => false
    case Unblock(_) => false
  }

  predicate Gives(t: Table, op: Op, d: string, token: string)
  {
    op.Register? && op.device == d && op.token == token && Admitted(t, op)
  }

  predicate Holds(t: Table, d: string, token: string) { d in t.clients && t.clients[d].token == token }

  lemma HoldsAfterStep(t: Table, op: Op, d: string, token: string)
    ensures Holds(Step(t, op), d, token) <==> Gives(t, op, d, token) || (Holds(t, d, token) && !Ends(t, op, d))
  {
  }

  /** In this run the `i`-th step gave `token` to `d`, and no later step ended that entry. */
  ghost predicate LatestOf(t: Table, ops: seq<Op>, i: int, d: string, token: string)
  {
    && 0 <= i < |ops|
    && Gives(Run(t, ops[..i]), ops[i], d, token)
    && forall k :: i < k < |ops| ==> !Ends(Run(t, ops[..k]), ops[k], d)
  }

  lemma LatestOfExtended(t: Table, ops: seq<Op>, i: int, d: string, token: string)
    requires ops != [] && i < |ops| - 1
    ensures LatestOf(t, ops, i, d, token)
            <==> LatestOf(t, ops[..|ops| - 1], i, d, token) && !Ends(Run(t, ops[..|ops| - 1]), ops[|ops| - 1], d)
  {
    var init := ops[..|ops| - 1];
    if 0 <= i {
      assert init[..i] == ops[..i];
      forall k | i < k < |init| ensures init[..k] == ops[..k] {}
      if LatestOf(t, init, i, d, token) && !Ends(Run(t, init), ops[|ops| - 1], d) {
        forall k | i < k < |ops| ensures !Ends(Run(t, ops[..k]), ops[k], d) {
          if k < |init| { assert !Ends(Run(t, init[..k]), init[k], d); }
        }
      }
      if LatestOf(t, ops, i, d, token) {
        forall k | i < k < |init| ensures !Ends(Run(t, init[..k]), init[k], d) {
          assert !Ends(Run(t, ops[..k]), ops[k], d);
        }
      }
    }
  }

  ghost predicate HasLatest(t: Table, ops: seq<Op>, d: string, token: string)
  { exists i :: LatestOf(t, ops, i, d, token) }

  lemma LatestAtEnd(t: Table, ops: seq<Op>, d: string, token: string)
    requires ops != []
    ensures LatestOf(t, ops, |ops| - 1, d, token) <==> Gives(Run(t, ops[..|ops| - 1]), ops[|ops| - 1], d, token)
  {
    hide Run, Gives, Ends;
  }

  lemma LatestInside(t: Table, ops: seq<Op>, i: int, d: string, token: string)
    requires LatestOf(t, ops, i, d, token)
    ensures 0 <= i < |ops|
  {
    hide Run, Gives, Ends;
  }

  /** One more step: it gives the token, or leaves the latest registration so far standing. */
  lemma HasLatestExtended(t: Table, ops: seq<Op>, d: string, token: string)
    requires ops != []
    ensures var before, op := Run(t, ops[..|ops| - 1]), ops[|ops| - 1];
            HasLatest(t, ops, d, token)
            <==> Gives(before, op, d, token) || (HasLatest(t, ops[..|ops| - 1], d, token) && !Ends(before, op, d))
  {
    hide Run, Gives, Ends, LatestOf;
    var n := |ops| - 1;
    LatestAtEnd(t, ops, d, token);
    if i :| LatestOf(t, ops, i, d, token) {
      LatestInside(t, ops, i, d, token);
      if i < n { LatestOfExtended(t, ops, i, d, token); }
    }
    if i :| LatestOf(t, ops[..n], i, d, token) {
      LatestInside(t, ops[..n], i, d, token);
      LatestOfExtended(t, ops, i, d, token);
    }
  }

  /** At the end of any run from a start a device holds exactly the token of its latest registration, if nothing has
      ended it since. */
  lemma {:induction false} HoldsItsLatest(start: Table, ops: seq<Op>, d: string, token: string)
    requires start.clients == map[]
    ensures Holds(Run(start, ops), d, token) <==> HasLatest(start, ops, d, token)
  {
    hide Holds, Gives, Ends, Step, HasLatest;
    if ops == [] {
      NobodyHolds(start, d, token);
    } else {
      var n := |ops| - 1;
      HoldsItsLatest(start, ops[..n], d, token);
      HasLatestExtended(start, ops, d, token);
      HoldsAfterStep(Run(start, ops[..n]), ops[n], d, token);
    }
  }

  lemma NobodyHolds(start: Table, d: string, token: string)
    requires start.clients == map[]
    ensures !Holds(Run(start, []), d, token) && !HasLatest(start, [], d, token)
  {
    forall i ensures !LatestOf(start, [], i, d, token) {}
  }

  lemma UsableMeans(c: Client, request: string, now: int)
    ensures Usable(c, request, now) <==>
              && c.status == Active && now - c.lastActivity <= 43200
              && (request == "" || request == c.ip || {request, c.ip} <= {"127.0.0.1", "::1", "localhost"})
  {
  }

  /** After a start, whatever is blocked and whichever tokens were issued before, a token is good exactly when it is its
      device's latest registration since, active, from the matching host and idle at most twelve hours; the device is
      unique and not blocked. */
  lemma GoodTokenIff(start: Table, ops: seq<Op>, token: string, request: string, now: int)
    requires start.clients == map[] && FreshRun(start, ops)
    ensures var t := Run(start, ops);
            Validates(t, token, request, now)
            <==> exists d, i ::
                   LatestOf(start, ops, i, d, token) && d in t.clients && var c := t.clients[d];
                   && c.status == Active && now - c.lastActivity <= 43200
                   && (request == "" || request == c.ip || {request, c.ip} <= {"127.0.0.1", "::1", "localhost"})
    ensures var t := Run(start, ops);
            forall d, e :: Holds(t, d, token) && Holds(t, e, token) ==> d == e && d !in t.blocked.Values
  {
    hide Run, LatestOf, Usable, FreshRun;
    assert TableOk(Run(start, ops)) by { RunKeepsOk(start, ops); }
    var t := Run(start, ops);
    forall d | d in t.clients
      ensures Usable(t.clients[d], request, now) <==>
                var c := t.clients[d];
                && c.status == Active && now - c.lastActivity <= 43200
                && (request == "" || request == c.ip || {request, c.ip} <= {"127.0.0.1", "::1", "localhost"})
    {
      UsableMeans(t.clients[d], request, now);
    }
    if Validates(t, token, request, now) {
      var d :| d in t.clients && t.clients[d].token == token && Usable(t.clients[d], request, now);
      HoldsItsLatest(start, ops, d, token);
      var i :| LatestOf(start, ops, i, d, token);
    }
    if d, i :| LatestOf(start, ops, i, d, token) && d in t.clients && Usable(t.clients[d], request, now) {
      HoldsItsLatest(start, ops, d, token);
      assert Holds(t, d, token);
    }
    forall d, e | Holds(t, d, token) && Holds(t, e, token) ensures d == e && d !in t.blocked.Values {
      assert EntryOk(t, d);
    }
  }

  /** Once an issued token is off the table, no later step brings it back. */
  lemma {:induction false} DeadTokensStayDead(t: Table, ops: seq<Op>, token: string, d: string)
    requires TableOk(t) && FreshRun(t, ops) && token in t.issued && forall e :: !Holds(t, e, token)
    ensures token in Run(t, ops).issued && !Holds(Run(t, ops), d, token)
    decreases |ops|
  {
    hide TableOk, FreshRun, Holds;
    if ops != [] {
      var init := ops[..|ops| - 1];
      RunSplit(t, ops);
      DeadTokensStayDead(t, init, token, d);
      HoldsAfterStep(Run(t, init), ops[|ops| - 1], d, token);
    }
  }

  /** The steps that lift a suspension. A registration does not: it is refused. */
  predicate Lifts(t: Table, op: Op, d: string)
  {
    (op.Resume? && op.device == d) || (!op.Register? && Ends(t, op, d))
  }

  lemma SuspensionSurvives(t: Table, op: Op, d: string, token: string)
    requires Holds(t, d, token) && t.clients[d].status == Suspended && !Lifts(t, op, d)
    ensures Holds(Step(t, op), d, token) && Step(t, op).clients[d].status == Suspended
  {
  }

  /** A suspended session keeps its token and stays unusable, and its device cannot register, until it is resumed or
      removed. */
  lemma {:induction false} SuspensionHolds(t: Table, ops: seq<Op>, d: string, token: string, request: string, now: int)
    requires TableOk(t) && FreshRun(t, ops) && Holds(t, d, token) && t.clients[d].status == Suspended
    requires forall k :: 0 <= k < |ops| ==> !Lifts(Run(t, ops[..k]), ops[k], d)
    ensures var u := Run(t, ops);
            Holds(u, d, token) && u.clients[d].status == Suspended && !Validates(u, token, request, now)
    decreases |ops|
  {
    if ops != [] {
      var init := ops[..|ops| - 1];
      RunSplit(t, ops);
      forall k | 0 <= k < |init| ensures !Lifts(Run(t, init[..k]), init[k], d) { assert init[..k] == ops[..k]; }
      SuspensionHolds(t, init, d, token, request, now);
      assert ops[..|ops| - 1] == init;
      SuspensionSurvives(Run(t, init), ops[|ops| - 1], d, token);
    }
    RunKeepsOk(t, ops);
  }

  /** Tokens being distinct, the first entry found with a token is the only one to touch. */
  lemma TouchesOne(t: Table, d: string, now: int)
    requires TableOk(t) && d in t.clients
    ensures Step(t, Touch(t.clients[d].token, now)) ==
              t.(clients := t.clients[d :=
                t.clients[d].(lastActivity := if now - t.clients[d].lastActivity > 10 then now
                                              else t.clients[d].lastActivity)])
  {
    assert Step(t, Touch(t.clients[d].token, now)).clients ==
           t.clients[d := Touched(t.clients[d], t.clients[d].token, now)];
  }

  // ----- the service -----

  class LanService {
    var connectedClients: map<string, Client>
    var blockedDevices: map<nat, string>
    ghost var issued: set<string>

    ghost function State(): Table
      reads this
    {
      Table(connectedClients, blockedDevices, issued)
    }

    ghost predicate Valid()
      reads this
    {
      TableOk(State())
    }

    /** Starts without clients; blocked devices come from the database, and earlier tokens are remembered as issued. */
    constructor (blocked: map<nat, string>, ghost earlier: set<string>)
      ensures Valid() && State() == Table(map[], blocked, earlier)
    {
      connectedClients, blockedDevices, issued := map[], blocked, earlier;
    }

    method RegisterClient(device: string, name: string, ip: string, now: int, token: string,
                          lookupFails: bool, ipLookupFails: bool, noRandomness: bool) returns (r: Reply<string>)
      requires Valid() && token != "" && token !in issued
      modifies this
      ensures Valid()
      ensures var op := Register(device, name, ip, now, token, lookupFails, ipLookupFails, noRandomness);
              State() == Step(old(State()), op) && (r == Granted(token) <==> Admitted(old(State()), op))
      ensures r.Refused? ==> State() == old(State())
    {
      ghost var op := Register(device, name, ip, now, token, lookupFails, ipLookupFails, noRandomness);
      StepKeepsOk(State(), op);
      if device == "" || name == "" { return Refused(InvalidDevice); }
      if lookupFails { return Refused(LookupFailed); }
      var isBlocked := device in blockedDevices.Values;
      if !isBlocked && ip != "" { isBlocked := !ipLookupFails && ip in blockedDevices.Values; }
      if isBlocked { return Refused(DeviceBlocked); }
      if device in connectedClients && connectedClients[device].status == Suspended { return Refused(DeviceSuspended); }
      if |connectedClients| >= MAX_CLIENTS {
        if device !in connectedClients { return Refused(TableFull); }
      }
      if noRandomness { return Refused(NoRandomness); }
      connectedClients := connectedClients[device := Client(device, name, ip, now, now, Active, token)];
      issued := issued + {token};
      r := Granted(token);
    }

    /** Walks the table in any order and answers from the one entry with this token. */
    method ValidateSessionToken(token: string, request: string, now: int) returns (r: Reply<Client>)
      requires Valid()
      ensures r.Granted? <==> Validates(State(), token, request, now)
      ensures r.Granted? ==> r.value in connectedClients.Values && r.value.token == token
      ensures r == Refused(UnknownToken) <==> forall d :: !Holds(State(), d, token)
    {
      var left := connectedClients.Keys;
      while left != {}
        invariant left <= connectedClients.Keys
        invariant forall d :: d in connectedClients && d !in left ==> connectedClients[d].token != token
        decreases left
      {
        var d :| d in left;
        var client := connectedClients[d];
        if client.token == token {
          assert Holds(State(), d, token);
          if request != "" && client.ip != request {
            if !(Loopback(client.ip) && Loopback(request)) { return Refused(WrongHost); }
          }
          if client.status == Suspended { return Refused(SessionSuspended); }
          if now - client.lastActivity > IDLE_LIMIT { return Refused(SessionExpired); }
          return Granted(client);
        }
        left := left - {d};
      }
      r := Refused(UnknownToken);
    }

    method UpdateClientActivity(token: string, now: int)
      requires Valid()
      modifies this
      ensures Valid() && State() == Step(old(State()), Touch(token, now))
    {
      hide TableOk;
      StepKeepsOk(State(), Touch(token, now));
      var d := FindToken(token);
      if d.Refused? {
        assert Step(State(), Touch(token, now)).clients == connectedClients;
        return;
      }
      TouchesOne(State(), d.value, now);
      if now - connectedClients[d.value].lastActivity > 10 {
        connectedClients := connectedClients[d.value := connectedClients[d.value].(lastActivity := now)];
      } else {
        assert connectedClients[d.value := connectedClients[d.value]] == connectedClients;
      }
    }

    method FindToken(token: string) returns (r: Reply<string>)
      ensures r.Granted? ==> r.value in connectedClients && connectedClients[r.value].token == token
      ensures r.Refused? ==> forall d :: d in connectedClients ==> connectedClients[d].token != token
    {
      var left := connectedClients.Keys;
      while left != {}
        invariant left <= connectedClients.Keys
        invariant forall d :: d in connectedClients && d !in left ==> connectedClients[d].token != token
        decreases left
      {
        var d :| d in left;
        if connectedClients[d].token == token { return Granted(d); }
        left := left - {d};
      }
      r := Refused(UnknownToken);
    }

    method DisconnectClient(device: string) returns (r: Reply<()>)
      requires Valid()
      modifies this
      ensures Valid() && State() == Step(old(State()), Disconnect(device))
      ensures r.Granted? <==> device in old(connectedClients)
    {
      StepKeepsOk(State(), Disconnect(device));
      if device !in connectedClients {
        assert Without(connectedClients, device) == connectedClients;
        return Refused(NotConnected);
      }
      connectedClients := Without(connectedClients, device);
      r := Granted(());
    }

    method SuspendClient(device: string) returns (r: Reply<()>)
      requires Valid()
      modifies this
      ensures Valid() && State() == Step(old(State()), Suspend(device))
      ensures r.Granted? <==> device in old(connectedClients)
    {
      StepKeepsOk(State(), Suspend(device));
      if device !in connectedClients { return Refused(NotConnected); }
      connectedClients := connectedClients[device := connectedClients[device].(status := Suspended)];
      r := Granted(());
    }

    method ResumeClient(device: string) returns (r: Reply<()>)
      requires Valid()
      modifies this
      ensures Valid() && State() == Step(old(State()), Resume(device))
      ensures r.Granted? <==> device in old(connectedClients)
    {
      StepKeepsOk(State(), Resume(device));
      if device !in connectedClients { return Refused(NotConnected); }
      connectedClients := connectedClients[device := connectedClients[device].(status := Active)];
      r := Granted(());
    }

    /** Disconnects first, so that a failed insert leaves no blocked device connected. Device ids are unique in the
        table. */
    method BlockDevice(device: string, row: nat, storeFails: bool) returns (r: Reply<()>)
      requires Valid() && row !in blockedDevices
      modifies this
      ensures Valid() && State() == Step(old(State()), Block(device, row, storeFails))
      ensures r.Granted? <==> !storeFails && device !in old(blockedDevices.Values)
    {
      StepKeepsOk(State(), Block(device, row, storeFails));
      var _ := DisconnectClient(device);
      if storeFails || device in blockedDevices.Values { return Refused(StoreFailed); }
      blockedDevices := blockedDevices[row := device];
      r := Granted(());
    }

    method UnblockDevice(row: nat) returns (r: Reply<()>)
      requires Valid()
      modifies this
      ensures Valid() && State() == Step(old(State()), Unblock(row))
      ensures r.Granted? <==> row in old(blockedDevices)
    {
      StepKeepsOk(State(), Unblock(row));
      if row !in blockedDevices {
        assert blockedDevices - {row} == blockedDevices;
        return Refused(NoSuchRow);
      }
      blockedDevices := blockedDevices - {row};
      r := Granted(());
    }

    method CleanupInactiveClients(now: int, maxInactive: int)
      requires Valid()
      modifies this
      ensures Valid() && State() == Step(old(State()), Cleanup(now, maxInactive))
    {
      StepKeepsOk(State(), Cleanup(now, maxInactive));
      connectedClients := ActiveClients(now, maxInactive);
    }

    /** The entries left after the clean-up walk. */
    method ActiveClients(now: int, maxInactive: int) returns (kept: map<string, Client>)
      ensures kept == Kept(connectedClients, now, maxInactive)
      ensures forall d :: d in kept <==>
                d in connectedClients && now - connectedClients[d].lastActivity <= maxInactive
    {
      kept := connectedClients;
      var left := connectedClients.Keys;
      while left != {}
        invariant left <= kept.Keys <= connectedClients.Keys
        invariant forall d :: d in kept ==> kept[d] == connectedClients[d]
        invariant forall d :: d in connectedClients && d !in left ==> (d in kept
                  <==> IdleAtMost(connectedClients[d], now, maxInactive))
        decreases left
      {
        var d :| d in left;
        if now - connectedClients[d].lastActivity > maxInactive {
          kept := Without(kept, d);
        }
        left := left - {d};
      }
    }

    method ClearAllClients()
      requires Valid()
      modifies this
      ensures Valid() && State() == Step(old(State()), Clear)
    {
      StepKeepsOk(State(), Clear);
      connectedClients := map[];
    }
  }
}
