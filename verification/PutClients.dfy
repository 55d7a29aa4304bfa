/**
 Many ingest processes storing tensors through one registry: each `put` reserves, stores and registers,
 with calls that may be lost, may be served after the caller gave up, and are served in order per caller.
 */
module PutClients {
  import opened Prelude
  import opened ObjectRegistry

  /** A call that a client has sent; the token is the client's `serial`-th. */
  datatype Call = ReserveCall(serial: nat) | RegisterCall(serial: nat) | CancelCall(serial: nat)

  /** Where a client stands in `put`. */
  datatype Pc = Idle | AwaitReserve | HasSlot | AwaitRegister | AwaitCancel

  /** `serial` is the number of the latest put; `sent` are its calls not yet served, oldest first. */
  datatype Client = Client(serial: nat, pc: Pc, sent: seq<Call>)

  /** A tensor is named by the token of the put that stored it. */
  datatype State = State(
    slots: Slots<Token>,
    stored: set<Token>,
    returned: set<Token>,
    clients: map<nat, Client>)

  datatype Event =
    | Begin(c: nat)
    | Store(c: nat)
    | StoreFails(c: nat)
    | Serve(c: nat)
    | Lose(c: nat)
    | GiveUp(c: nat)
    | ReleaseToken(token: Token)

  const START := State(Slots(map[], {}), {}, {}, map[])

  function ClientOf(s: State, c: nat): Client {
    if c in s.clients then s.clients[c] else Client(0, Idle, [])
  }

  function WithClient(s: State, c: nat, client: Client): State {
    s.(clients := s.clients[c := client])
  }

  /** The except branch: the tensor, if stored, is freed, and the reservation is cancelled. */
  function RollBack(s: State, c: nat): State {
    var me := ClientOf(s, c);
    WithClient(s.(stored := s.stored - {Token(c, me.serial)}), c,
               Client(me.serial, AwaitCancel, me.sent + [CancelCall(me.serial)]))
  }

  /** The awaited call failed or timed out: `put` raises, after rolling back if it had reserved. */
  function Raise(s: State, c: nat): State {
    var me := ClientOf(s, c);
    if me.pc == AwaitRegister then RollBack(s, c) else WithClient(s, c, me.(pc := Idle))
  }

  /** The client's oldest call reaches the registry: the slots after it, and whether it succeeded. */
  function Served(slots: Slots<Token>, c: nat, call: Call, limit: nat): (Slots<Token>, bool) {
    match call
    case ReserveCall(i) => Reserve(slots, Token(c, i), limit)
    case RegisterCall(i) => Register(slots, Token(c, i), Token(c, i), limit)
    case CancelCall(i) => (Cancel(slots, Token(c, i)).0, true)
  }

  /** The client takes the reply of the call it awaits: the one it sent last. */
  function Answered(s: State, c: nat, ok: bool): State {
    var me := ClientOf(s, c);
    if me.sent != [] || me.pc == Idle || me.pc == HasSlot then s
    else if !ok then Raise(s, c)
    else
      match me.pc
      case AwaitReserve => WithClient(s, c, me.(pc := HasSlot))
      case AwaitRegister =>
        WithClient(s.(returned := s.returned + {Token(c, me.serial)}), c, me.(pc := Idle))
      case _ => WithClient(s, c, me.(pc := Idle))
  }

  function Step(s: State, e: Event, limit: nat): State {
    match e
    case Begin(c) =>
      var me := ClientOf(s, c);
      if me.pc != Idle then s
      else WithClient(s, c, Client(me.serial + 1, AwaitReserve, me.sent + [ReserveCall(me.serial + 1)]))
    case Store(c) =>
      var me := ClientOf(s, c);
      if me.pc != HasSlot then s
      else WithClient(s.(stored := s.stored + {Token(c, me.serial)}), c,
                      Client(me.serial, AwaitRegister, me.sent + [RegisterCall(me.serial)]))
    case StoreFails(c) => if ClientOf(s, c).pc != HasSlot then s else RollBack(s, c)
    case Serve(c) =>
      var me := ClientOf(s, c);
      if me.sent == [] then s
      else
        var reply := Served(s.slots, c, me.sent[0], limit);
        Answered(WithClient(s.(slots := reply.0), c, me.(sent := me.sent[1..])), c, reply.1)
    case Lose(c) =>
      var me := ClientOf(s, c);
      if me.sent == [] then s
      else Answered(WithClient(s, c, me.(sent := me.sent[1..])), c, false)
    case GiveUp(c) =>
      var pc := ClientOf(s, c).pc;
      if pc == Idle || pc == HasSlot then s else Raise(s, c)
    case ReleaseToken(token) =>
      if token !in s.returned then s
      else
        var released := Release(s.slots, token);
        s.(slots := released.0, stored := if released.2.Some? then s.stored - {released.2.value} else s.stored)
  }

  function Run(es: seq<Event>, limit: nat): State {
    if es == [] then START else Step(Run(es[..|es| - 1], limit), es[|es| - 1], limit)
  }

  // ---------------------------------------------------------------- the invariant

  /** A call not yet served is of this put or an earlier one, and only of stages it has reached. */
  ghost predicate CallOk(s: State, c: nat, me: Client, call: Call) {
    match call
    case ReserveCall(i) => i <= me.serial
    case RegisterCall(i) => i < me.serial || (i == me.serial && me.pc in {AwaitRegister, AwaitCancel, Idle})
    case CancelCall(i) =>
      && (i < me.serial || (i == me.serial && me.pc in {AwaitCancel, Idle}))
      && Token(c, i) !in s.stored
  }

  /** The current put's token is where its stage says. */
  ghost predicate StageOk(s: State, c: nat, me: Client) {
    match me.pc
    case Idle => true
    case AwaitReserve => me.sent != [] && me.sent[|me.sent| - 1] == ReserveCall(me.serial)
    case HasSlot => me.sent == [] && Token(c, me.serial) in s.slots.reservations
    case AwaitRegister =>
      me.sent == [RegisterCall(me.serial)] && Token(c, me.serial) in s.slots.reservations
    case AwaitCancel => me.sent != []
  }

  /** Tokens of client c: none is ahead of its puts, and a stored one is registered or about to be. */
  ghost predicate TokenOk(s: State, c: nat, me: Client, i: nat) {
    && (Token(c, i) in s.slots.entries ==>
          s.slots.entries[Token(c, i)] == Token(c, i)
          && (i < me.serial
              || (i == me.serial && (me.pc in {Idle, AwaitCancel} || (me.pc == AwaitRegister && me.sent == [])))))
    && (Token(c, i) in s.returned ==> i < me.serial || (i == me.serial && me.pc == Idle))
    && (Token(c, i) in s.stored ==>
          Token(c, i) in s.slots.entries || (i == me.serial && me.pc == AwaitRegister))
  }

  ghost predicate ClientOk(s: State, c: nat) {
    var me := ClientOf(s, c);
    && StageOk(s, c, me)
    && (forall j: nat {:trigger me.sent[j]} :: j < |me.sent| ==> CallOk(s, c, me, me.sent[j]))
    && (forall i: nat {:trigger TokenOk(s, c, me, i)} :: TokenOk(s, c, me, i))
  }

  ghost predicate Inv(s: State, limit: nat) {
    && s.slots.Valid(limit)
    && (forall c: nat {:trigger ClientOk(s, c)} :: ClientOk(s, c))
  }

  /** Nothing that concerns client c differs. */
  ghost predicate SameFor(s: State, t: State, c: nat) {
    && ClientOf(s, c) == ClientOf(t, c)
    && (forall i: nat {:trigger Token(c, i)} ::
          && (Token(c, i) in s.slots.entries <==> Token(c, i) in t.slots.entries)
          && (Token(c, i) in s.slots.entries ==> s.slots.entries[Token(c, i)] == t.slots.entries[Token(c, i)])
          && (Token(c, i) in s.slots.reservations <==> Token(c, i) in t.slots.reservations)
          && (Token(c, i) in s.stored <==> Token(c, i) in t.stored)
          && (Token(c, i) in s.returned <==> Token(c, i) in t.returned))
  }

  lemma SameIsOk(s: State, t: State, c: nat)
    requires ClientOk(s, c) && SameFor(s, t, c)
    ensures ClientOk(t, c)
  {
    var me := ClientOf(s, c);
    forall j: nat | j < |me.sent| ensures CallOk(t, c, me, me.sent[j]) {
      assert CallOk(s, c, me, me.sent[j]);
    }
    forall i: nat ensures TokenOk(t, c, me, i) {
      assert TokenOk(s, c, me, i);
    }
  }

  /** Proof rule: a client is in order when its stage, its calls and its tokens are. */
  lemma ClientOkIntro(s: State, c: nat, me: Client)
    requires me == ClientOf(s, c) && StageOk(s, c, me)
    requires forall j: nat :: j < |me.sent| ==> CallOk(s, c, me, me.sent[j])
    requires forall i: nat :: TokenOk(s, c, me, i)
    ensures ClientOk(s, c)
  {
  }

  lemma BeginOk(s: State, c: nat, limit: nat)
    requires ClientOk(s, c)
    ensures ClientOk(Step(s, Begin(c), limit), c)
  {
    var me, t := ClientOf(s, c), Step(s, Begin(c), limit);
    if me.pc == Idle {
      var now := ClientOf(t, c);
      forall j: nat | j < |now.sent| ensures CallOk(t, c, now, now.sent[j]) {
        assert j < |me.sent| ==> CallOk(s, c, me, me.sent[j]);
      }
      forall i: nat ensures TokenOk(t, c, now, i) {
        assert TokenOk(s, c, me, i);
      }
      ClientOkIntro(t, c, now);
    }
  }

  lemma StoreOk(s: State, c: nat, limit: nat)
    requires ClientOk(s, c)
    ensures ClientOk(Step(s, Store(c), limit), c)
  {
    var me, t := ClientOf(s, c), Step(s, Store(c), limit);
    if me.pc == HasSlot {
      var now := ClientOf(t, c);
      forall i: nat ensures TokenOk(t, c, now, i) {
        assert TokenOk(s, c, me, i);
      }
      ClientOkIntro(t, c, now);
    }
  }

  /** The calls and tokens of client c are in order; its stage may be between two steps. */
  ghost predicate Popped(s: State, c: nat, me: Client) {
    && (forall j: nat {:trigger me.sent[j]} :: j < |me.sent| ==> CallOk(s, c, me, me.sent[j]))
    && (forall i: nat {:trigger TokenOk(s, c, me, i)} :: TokenOk(s, c, me, i))
  }

  /** Rolling back, from a stage in which the put holds a reservation. */
  lemma RollBackOk(s: State, c: nat)
    requires ClientOf(s, c).pc in {HasSlot, AwaitRegister} && Popped(s, c, ClientOf(s, c))
    ensures ClientOk(RollBack(s, c), c)
  {
    var me, t := ClientOf(s, c), RollBack(s, c);
    var now := ClientOf(t, c);
    forall j: nat | j < |now.sent| ensures CallOk(t, c, now, now.sent[j]) {
      assert j < |me.sent| ==> CallOk(s, c, me, me.sent[j]);
    }
    forall i: nat ensures TokenOk(t, c, now, i) {
      assert TokenOk(s, c, me, i);
    }
    ClientOkIntro(t, c, now);
  }

  /** The awaiting client raises: with or without a roll-back it is in order again. */
  lemma RaiseOk(s: State, c: nat)
    requires ClientOf(s, c).pc in {AwaitReserve, AwaitRegister, AwaitCancel} && Popped(s, c, ClientOf(s, c))
    ensures ClientOk(Raise(s, c), c)
  {
    var me, t := ClientOf(s, c), Raise(s, c);
    if me.pc == AwaitRegister {
      RollBackOk(s, c);
    } else {
      var now := ClientOf(t, c);
      forall j: nat | j < |now.sent| ensures CallOk(t, c, now, now.sent[j]) {
        assert CallOk(s, c, me, me.sent[j]);
      }
      forall i: nat ensures TokenOk(t, c, now, i) {
        assert TokenOk(s, c, me, i);
      }
      ClientOkIntro(t, c, now);
    }
  }

  lemma GiveUpOk(s: State, c: nat, limit: nat)
    requires ClientOk(s, c)
    ensures ClientOk(Step(s, GiveUp(c), limit), c)
  {
    var me := ClientOf(s, c);
    assert forall i: nat :: TokenOk(s, c, me, i);
    if me.pc != Idle && me.pc != HasSlot {
      RaiseOk(s, c);
    }
  }

  lemma AnsweredOk(s: State, c: nat, ok: bool)
    requires Popped(s, c, ClientOf(s, c))
    requires ClientOf(s, c).sent != [] || ClientOf(s, c).pc in {Idle, HasSlot} ==> StageOk(s, c, ClientOf(s, c))
    requires ClientOf(s, c).sent == [] && ok ==>
      match ClientOf(s, c).pc
      case AwaitReserve => Token(c, ClientOf(s, c).serial) in s.slots.reservations
      case AwaitRegister => Token(c, ClientOf(s, c).serial) in s.slots.entries
      case _ => true
    ensures ClientOk(Answered(s, c, ok), c)
  {
    var me, t := ClientOf(s, c), Answered(s, c, ok);
    if me.sent != [] || me.pc == Idle || me.pc == HasSlot {
      ClientOkIntro(s, c, me);
    } else if !ok {
      RaiseOk(s, c);
    } else {
      var now := ClientOf(t, c);
      forall i: nat ensures TokenOk(t, c, now, i) {
        assert TokenOk(s, c, me, i);
      }
      ClientOkIntro(t, c, now);
    }
  }

  /** What serving a call does to a token: nothing, unless the call is about it. */
  lemma ServedTokens(slots: Slots<Token>, c: nat, call: Call, limit: nat)
    requires slots.Valid(limit)
    ensures var (t, ok) := Served(slots, c, call, limit);
      && t.Valid(limit)
      && (forall u {:trigger u in t.entries} :: u != Token(c, call.serial) ==>
            (u in t.entries <==> u in slots.entries) && (u in slots.entries ==> t.entries[u] == slots.entries[u]))
      && (forall u {:trigger u in t.reservations} :: u != Token(c, call.serial) ==>
            (u in t.reservations <==> u in slots.reservations))
      && (Token(c, call.serial) in slots.entries ==>
            Token(c, call.serial) in t.entries && t.entries[Token(c, call.serial)] == slots.entries[Token(c, call.serial)])
      && (Token(c, call.serial) in t.entries && Token(c, call.serial) !in slots.entries ==>
            call.RegisterCall? && t.entries[Token(c, call.serial)] == Token(c, call.serial))
      && (ok && call.ReserveCall? ==> t.Holds(Token(c, call.serial)))
      && (call.RegisterCall? && slots.Holds(Token(c, call.serial)) ==> ok && Token(c, call.serial) in t.entries)
  {
    match call
    case ReserveCall(i) => ReserveKeeps(slots, Token(c, i), limit);
    case RegisterCall(i) => RegisterKeeps(slots, Token(c, i), Token(c, i), limit);
    case CancelCall(i) => CancelKeeps(slots, Token(c, i), limit);
  }

  /** The state in which the oldest call has been served and the reply not yet taken. */
  function AfterCall(s: State, c: nat, slots: Slots<Token>): State {
    var me := ClientOf(s, c);
    WithClient(s.(slots := slots), c, me.(sent := if me.sent == [] then [] else me.sent[1..]))
  }

  lemma ServePops(s: State, c: nat, limit: nat)
    requires ClientOk(s, c) && s.slots.Valid(limit) && ClientOf(s, c).sent != []
    ensures var me := ClientOf(s, c); var slots := Served(s.slots, c, me.sent[0], limit).0;
      Popped(AfterCall(s, c, slots), c, ClientOf(AfterCall(s, c, slots), c))
  {
    var me := ClientOf(s, c);
    var call := me.sent[0];
    ServedTokens(s.slots, c, call, limit);
    var t := AfterCall(s, c, Served(s.slots, c, call, limit).0);
    var now := ClientOf(t, c);
    assert CallOk(s, c, me, call);
    forall j: nat | j < |now.sent| ensures CallOk(t, c, now, now.sent[j]) {
      assert CallOk(s, c, me, me.sent[j + 1]);
    }
    forall i: nat ensures TokenOk(t, c, now, i) {
      assert TokenOk(s, c, me, i);
    }
  }

  lemma ServeOk(s: State, c: nat, limit: nat)
    requires ClientOk(s, c) && s.slots.Valid(limit)
    ensures ClientOk(Step(s, Serve(c), limit), c)
  {
    var me := ClientOf(s, c);
    if me.sent != [] {
      var call := me.sent[0];
      var reply := Served(s.slots, c, call, limit);
      var t := AfterCall(s, c, reply.0);
      ServePops(s, c, limit);
      ServedTokens(s.slots, c, call, limit);
      assert TokenOk(s, c, me, me.serial) && TokenOk(t, c, ClientOf(t, c), me.serial);
      AnsweredOk(t, c, reply.1);
    }
  }

  lemma LoseOk(s: State, c: nat, limit: nat)
    requires ClientOk(s, c)
    ensures ClientOk(Step(s, Lose(c), limit), c)
  {
    var me := ClientOf(s, c);
    if me.sent != [] {
      var t := AfterCall(s, c, s.slots);
      var now := ClientOf(t, c);
      forall j: nat | j < |now.sent| ensures CallOk(t, c, now, now.sent[j]) {
        assert CallOk(s, c, me, me.sent[j + 1]);
      }
      forall i: nat ensures TokenOk(t, c, now, i) {
        assert TokenOk(s, c, me, i);
      }
      AnsweredOk(t, c, false);
    }
  }

  lemma ReleaseOk(s: State, token: Token, c: nat, limit: nat)
    requires ClientOk(s, c) && ClientOk(s, token.client) && s.slots.Valid(limit)
    ensures ClientOk(Step(s, ReleaseToken(token), limit), c)
  {
    var me, t := ClientOf(s, c), Step(s, ReleaseToken(token), limit);
    if token in s.returned {
      assert TokenOk(s, token.client, ClientOf(s, token.client), token.serial);
      forall j: nat | j < |me.sent| ensures CallOk(t, c, me, me.sent[j]) {
        assert CallOk(s, c, me, me.sent[j]);
      }
      forall i: nat ensures TokenOk(t, c, me, i) {
        assert TokenOk(s, c, me, i);
      }
      ClientOkIntro(t, c, me);
    }
  }

  /** The client that an event is about. */
  function Actor(e: Event): nat {
    if e.ReleaseToken? then e.token.client else e.c
  }

  /** Taking a reply changes neither the slots nor another client. */
  lemma AnsweredFrame(s: State, a: nat, ok: bool, c: nat)
    requires c != a
    ensures Answered(s, a, ok).slots == s.slots && ClientOf(Answered(s, a, ok), c) == ClientOf(s, c)
    ensures forall i: nat {:trigger Token(c, i)} ::
      && (Token(c, i) in Answered(s, a, ok).stored <==> Token(c, i) in s.stored)
      && (Token(c, i) in Answered(s, a, ok).returned <==> Token(c, i) in s.returned)
  {
  }

  lemma OthersServe(s: State, a: nat, limit: nat, c: nat)
    requires s.slots.Valid(limit) && c != a && ClientOf(s, a).sent != []
    ensures SameFor(s, Step(s, Serve(a), limit), c)
    ensures Step(s, Serve(a), limit).slots == Served(s.slots, a, ClientOf(s, a).sent[0], limit).0
  {
    var reply := Served(s.slots, a, ClientOf(s, a).sent[0], limit);
    ServedTokens(s.slots, a, ClientOf(s, a).sent[0], limit);
    AnsweredFrame(AfterCall(s, a, reply.0), a, reply.1, c);
  }

  lemma OthersRelease(s: State, token: Token, limit: nat, c: nat)
    requires c != token.client && ClientOk(s, token.client)
    ensures SameFor(s, Step(s, ReleaseToken(token), limit), c)
  {
    assert TokenOk(s, token.client, ClientOf(s, token.client), token.serial);
  }

  lemma OthersLose(s: State, a: nat, limit: nat, c: nat)
    requires c != a && ClientOf(s, a).sent != []
    ensures SameFor(s, Step(s, Lose(a), limit), c) && Step(s, Lose(a), limit).slots == s.slots
  {
    AnsweredFrame(AfterCall(s, a, s.slots), a, false, c);
  }

  /** An event leaves other clients as they are. */
  lemma OthersSame(s: State, e: Event, limit: nat, c: nat)
    requires s.slots.Valid(limit) && c != Actor(e) && ClientOk(s, Actor(e))
    ensures SameFor(s, Step(s, e, limit), c)
  {
    match e
    case Serve(a) => if ClientOf(s, a).sent != [] { OthersServe(s, a, limit, c); }
    case Lose(a) => if ClientOf(s, a).sent != [] { OthersLose(s, a, limit, c); }
    case ReleaseToken(token) => OthersRelease(s, token, limit, c);
    case _ =>
  }

  lemma SlotsStayValid(s: State, e: Event, limit: nat)
    requires s.slots.Valid(limit)
    ensures Step(s, e, limit).slots.Valid(limit)
  {
    match e
    case Serve(c) =>
      if ClientOf(s, c).sent != [] {
        OthersServe(s, c, limit, c + 1);
        ServedTokens(s.slots, c, ClientOf(s, c).sent[0], limit);
      }
    case ReleaseToken(token) => ReleaseKeeps(s.slots, token, limit);
    case _ => assert Step(s, e, limit).slots == s.slots;
  }

  lemma ActorStaysOk(s: State, e: Event, limit: nat)
    requires s.slots.Valid(limit) && ClientOk(s, Actor(e))
    ensures ClientOk(Step(s, e, limit), Actor(e))
  {
    match e
    case Begin(c) => BeginOk(s, c, limit);
    case Store(c) => StoreOk(s, c, limit);
    case StoreFails(c) => if ClientOf(s, c).pc == HasSlot { RollBackOk(s, c); }
    case Serve(c) => ServeOk(s, c, limit);
    case Lose(c) => LoseOk(s, c, limit);
    case GiveUp(c) => GiveUpOk(s, c, limit);
    case ReleaseToken(token) => ReleaseOk(s, token, token.client, limit);
  }

  lemma StepKeeps(s: State, e: Event, limit: nat)
    requires Inv(s, limit)
    ensures Inv(Step(s, e, limit), limit)
  {
    var t := Step(s, e, limit);
    SlotsStayValid(s, e, limit);
    assert ClientOk(s, Actor(e));
    forall c: nat ensures ClientOk(t, c) {
      assert ClientOk(s, c);
      if c == Actor(e) {
        ActorStaysOk(s, e, limit);
      } else {
        OthersSame(s, e, limit, c);
        SameIsOk(s, t, c);
      }
    }
  }

  lemma {:induction false} RunKeeps(es: seq<Event>, limit: nat)
    ensures Inv(Run(es, limit), limit)
  {
    if es == [] {
      forall c: nat ensures ClientOk(START, c) {
      }
    } else {
      RunKeeps(es[..|es| - 1], limit);
      StepKeeps(Run(es[..|es| - 1], limit), es[|es| - 1], limit);
    }
  }

  // ---------------------------------------------------------------- what follows

  /** However calls are lost, late or timed out: entries and reservations are disjoint and within the limit. */
  lemma CapacityIsNeverExceeded(es: seq<Event>, limit: nat)
    ensures var s := Run(es, limit).slots; s.entries.Keys !! s.reservations && s.Count() <= limit
  {
    RunKeeps(es, limit);
  }

  /** Every stored tensor has a slot, so stored tensors never outnumber slots, nor the limit. */
  lemma StoredTensorsHaveSlots(es: seq<Event>, limit: nat)
    ensures var s := Run(es, limit);
      && (forall u :: u in s.stored ==> s.slots.Holds(u))
      && |s.stored| <= s.slots.Count() <= limit
  {
    RunKeeps(es, limit);
    var s := Run(es, limit);
    forall u | u in s.stored ensures s.slots.Holds(u) {
      assert ClientOk(s, u.client);
      assert TokenOk(s, u.client, ClientOf(s, u.client), u.serial);
    }
    SubsetSize(s.stored, s.slots.entries.Keys + s.slots.reservations);
  }

  // ---------------------------------------------------------------- leaked slots

  /** The i-th put of client c has returned or raised. */
  predicate Over(s: State, c: nat, i: nat) {
    var me := ClientOf(s, c);
    i < me.serial || (i == me.serial && me.pc == Idle)
  }

  /** A finished put's token is registered, or reserved with no cancellation on its way. */
  predicate Leaked(s: State, c: nat, i: nat) {
    || Token(c, i) in s.slots.entries
    || (Token(c, i) in s.slots.reservations && CancelCall(i) !in ClientOf(s, c).sent)
  }

  /** The put is over, it returned nothing, and its token is leaked. */
  ghost predicate Leaking(s: State, c: nat, i: nat) {
    Over(s, c, i) && Token(c, i) !in s.returned && Leaked(s, c, i)
  }

  /** What taking a reply may do: send a cancellation of the put in progress, or return its token. */
  lemma AnsweredOver(s: State, c: nat, ok: bool, i: nat)
    requires Over(s, c, i)
    ensures var t := Answered(s, c, ok);
      && Over(t, c, i) && t.slots == s.slots
      && (Token(c, i) in t.returned <==> Token(c, i) in s.returned)
      && (CancelCall(i) in ClientOf(t, c).sent <==> CancelCall(i) in ClientOf(s, c).sent)
  {
  }

  lemma ServeLeaks(s: State, c: nat, i: nat, limit: nat)
    requires Leaking(s, c, i) && s.slots.Valid(limit) && ClientOf(s, c).sent != []
    ensures Leaking(Step(s, Serve(c), limit), c, i)
  {
    var call := ClientOf(s, c).sent[0];
    var reply := Served(s.slots, c, call, limit);
    ServedTokens(s.slots, c, call, limit);
    assert call == CancelCall(i) ==> CancelCall(i) in ClientOf(s, c).sent;
    AnsweredOver(AfterCall(s, c, reply.0), c, reply.1, i);
  }

  lemma LoseLeaks(s: State, c: nat, i: nat, limit: nat)
    requires Leaking(s, c, i) && ClientOf(s, c).sent != []
    ensures Leaking(Step(s, Lose(c), limit), c, i)
  {
    AnsweredOver(AfterCall(s, c, s.slots), c, false, i);
  }

  lemma LeakStays(s: State, c: nat, i: nat, e: Event, limit: nat)
    requires Inv(s, limit) && Leaking(s, c, i)
    ensures Leaking(Step(s, e, limit), c, i)
  {
    if Actor(e) != c {
      assert ClientOk(s, Actor(e));
      OthersSame(s, e, limit, c);
    } else {
      match e
      case Serve(_) => if ClientOf(s, c).sent != [] { ServeLeaks(s, c, i, limit); }
      case Lose(_) => if ClientOf(s, c).sent != [] { LoseLeaks(s, c, i, limit); }
      case _ =>
    }
  }

  lemma RunStep(es: seq<Event>, e: Event, limit: nat)
    ensures Run(es + [e], limit) == Step(Run(es, limit), e, limit)
  {
    assert (es + [e])[..|es|] == es;
  }

  lemma {:induction false} LeakStaysInRun(es: seq<Event>, more: seq<Event>, limit: nat, c: nat, i: nat)
    requires Leaking(Run(es, limit), c, i)
    ensures Leaking(Run(es + more, limit), c, i)
  {
    if more == [] {
      assert es + more == es;
    } else {
      var front, e := more[..|more| - 1], more[|more| - 1];
      LeakStaysInRun(es, front, limit, c, i);
      assert es + more == (es + front) + [e];
      RunStep(es + front, e, limit);
      RunKeeps(es + front, limit);
      LeakStays(Run(es + front, limit), c, i, e, limit);
    }
  }

  lemma RunThree(es: seq<Event>, e: Event, f: Event, g: Event, limit: nat)
    ensures Run(es + [e, f, g], limit) == Step(Step(Step(Run(es, limit), e, limit), f, limit), g, limit)
  {
    assert es + [e, f] == (es + [e]) + [f] && es + [e, f, g] == (es + [e, f]) + [g];
    RunStep(es, e, limit);
    RunStep(es + [e], f, limit);
    RunStep(es + [e, f], g, limit);
  }

  /** If the calls ahead of a cancellation are lost and it is served, the reservation is gone. */
  lemma {:induction false} CancellationFrees(es: seq<Event>, limit: nat, c: nat, i: nat, j: nat)
    returns (more: seq<Event>)
    requires Token(c, i) !in Run(es, limit).slots.entries
    requires j < |ClientOf(Run(es, limit), c).sent| && ClientOf(Run(es, limit), c).sent[j] == CancelCall(i)
    ensures !Run(es + more, limit).slots.Holds(Token(c, i))
    decreases j
  {
    var s := Run(es, limit);
    if j == 0 {
      more := [Serve(c)];
      RunStep(es, Serve(c), limit);
      AnsweredSlots(AfterCall(s, c, Cancel(s.slots, Token(c, i)).0), c, true);
    } else {
      RunStep(es, Lose(c), limit);
      assert Run(es + [Lose(c)], limit) == AfterCall(s, c, s.slots);
      var rest := CancellationFrees(es + [Lose(c)], limit, c, i, j - 1);
      more := [Lose(c)] + rest;
      assert es + more == (es + [Lose(c)]) + rest;
    }
  }

  lemma AnsweredSlots(s: State, c: nat, ok: bool)
    ensures Answered(s, c, ok).slots == s.slots
  {
  }

  /** The token has a slot after the continuation. */
  predicate HeldAfter(es: seq<Event>, more: seq<Event>, limit: nat, token: Token) {
    Run(es + more, limit).slots.Holds(token)
  }

  /**
   The token of a put that is over and returned nothing keeps its slot on every continuation exactly when it
   is registered, or reserved with no cancellation on its way.
   */
  lemma SlotIsLeakedIff(es: seq<Event>, limit: nat, c: nat, i: nat)
    requires Over(Run(es, limit), c, i) && Token(c, i) !in Run(es, limit).returned
    ensures (forall more :: HeldAfter(es, more, limit, Token(c, i))) <==> Leaked(Run(es, limit), c, i)
  {
    var s := Run(es, limit);
    if Leaked(s, c, i) {
      forall more ensures HeldAfter(es, more, limit, Token(c, i)) {
        LeakStaysInRun(es, more, limit, c, i);
      }
    } else if s.slots.Holds(Token(c, i)) {
      var j :| 0 <= j < |ClientOf(s, c).sent| && ClientOf(s, c).sent[j] == CancelCall(i);
      var more := CancellationFrees(es, limit, c, i, j);
      assert !HeldAfter(es, more, limit, Token(c, i));
    } else {
      assert es + [] == es;
      assert !HeldAfter(es, [], limit, Token(c, i));
    }
  }

  const LATE_RESERVE: seq<Event> := [Begin(0), GiveUp(0), Serve(0)]

  /** A reserve call served after its caller gave up holds its slot whatever happens next. */
  lemma TimedOutReserveLeaksSlot(limit: nat, more: seq<Event>)
    requires limit > 0
    ensures var s := Run(LATE_RESERVE, limit);
      s.slots.Count() == 1 && s.stored == {} && s.returned == {} && ClientOf(s, 0) == Client(1, Idle, [])
    ensures Run(LATE_RESERVE + more, limit).slots.Holds(Token(0, 1))
  {
    LateReserve(limit);
    SlotIsLeakedIff(LATE_RESERVE, limit, 0, 1);
    assert HeldAfter(LATE_RESERVE, more, limit, Token(0, 1));
  }

  lemma LateReserveSteps(s: State, limit: nat)
    requires limit > 0 && s == START
    ensures Step(Step(Step(s, Begin(0), limit), GiveUp(0), limit), Serve(0), limit)
         == State(Slots(map[], {Token(0, 1)}), {}, {}, map[0 := Client(1, Idle, [])])
  {
    var s1 := Step(s, Begin(0), limit);
    assert ClientOf(s1, 0).sent == [ReserveCall(1)];
    assert s1 == s.(clients := map[0 := Client(1, AwaitReserve, [ReserveCall(1)])]);
    var s2 := Step(s1, GiveUp(0), limit);
    assert s2 == s.(clients := map[0 := Client(1, Idle, [ReserveCall(1)])]);
    assert s2.slots.reservations + {Token(0, 1)} == {Token(0, 1)} && [ReserveCall(1)][1..] == [];
  }

  lemma LateReserve(limit: nat)
    requires limit > 0
    ensures Run(LATE_RESERVE, limit)
         == State(Slots(map[], {Token(0, 1)}), {}, {}, map[0 := Client(1, Idle, [])])
  {
    RunThree([], Begin(0), GiveUp(0), Serve(0), limit);
    LateReserveSteps(Run([], limit), limit);
    assert [] + [Begin(0), GiveUp(0), Serve(0)] == LATE_RESERVE;
  }

  const LATE_REGISTER: seq<Event> := [Begin(0), Serve(0), Store(0), GiveUp(0), Serve(0), Serve(0)]

  lemma UntilRegister(s: State, limit: nat)
    requires limit > 0 && s == START
    ensures Step(Step(Step(s, Begin(0), limit), Serve(0), limit), Store(0), limit)
         == State(Slots(map[], {Token(0, 1)}), {Token(0, 1)}, {}, map[0 := Client(1, AwaitRegister, [RegisterCall(1)])])
  {
    var s1 := Step(s, Begin(0), limit);
    assert ClientOf(s1, 0).sent == [ReserveCall(1)] && [ReserveCall(1)][1..] == [];
    var s2 := Step(s1, Serve(0), limit);
    assert s2.clients == map[0 := Client(1, HasSlot, [])];
    assert s2.slots.reservations == {Token(0, 1)};
    assert ClientOf(Step(s2, Store(0), limit), 0).sent == [RegisterCall(1)];
  }

  lemma AfterGivingUp(s: State, limit: nat)
    requires s == State(Slots(map[], {Token(0, 1)}), {Token(0, 1)}, {},
                        map[0 := Client(1, AwaitRegister, [RegisterCall(1)])])
    ensures Step(Step(Step(s, GiveUp(0), limit), Serve(0), limit), Serve(0), limit)
         == State(Slots(map[Token(0, 1) := Token(0, 1)], {}), {}, {}, map[0 := Client(1, Idle, [])])
  {
    var s1 := Step(s, GiveUp(0), limit);
    assert ClientOf(s1, 0).sent == [RegisterCall(1), CancelCall(1)];
    assert [RegisterCall(1), CancelCall(1)][1..] == [CancelCall(1)] && [CancelCall(1)][1..] == [];
    assert s1.stored == {};
    var s2 := Step(s1, Serve(0), limit);
    assert s2.slots == Slots(map[Token(0, 1) := Token(0, 1)], {});
    assert s2.clients == map[0 := Client(1, AwaitCancel, [CancelCall(1)])];
  }

  lemma LateRegister(limit: nat)
    requires limit > 0
    ensures Run(LATE_REGISTER, limit)
         == State(Slots(map[Token(0, 1) := Token(0, 1)], {}), {}, {}, map[0 := Client(1, Idle, [])])
  {
    RunThree([], Begin(0), Serve(0), Store(0), limit);
    UntilRegister(Run([], limit), limit);
    var one: seq<Event> := [] + [Begin(0), Serve(0), Store(0)];
    RunThree(one, GiveUp(0), Serve(0), Serve(0), limit);
    AfterGivingUp(Run(one, limit), limit);
    assert one + [GiveUp(0), Serve(0), Serve(0)] == LATE_REGISTER;
  }

  /** So does a register call served after its caller rolled back: the cancellation drops reservations only. */
  lemma TimedOutRegisterLeaksSlot(limit: nat, more: seq<Event>)
    requires limit > 0
    ensures var s := Run(LATE_REGISTER, limit);
      s.slots.Count() == 1 && s.stored == {} && s.returned == {} && ClientOf(s, 0) == Client(1, Idle, [])
    ensures Run(LATE_REGISTER + more, limit).slots.Holds(Token(0, 1))
  {
    LateRegister(limit);
    SlotIsLeakedIff(LATE_REGISTER, limit, 0, 1);
    assert HeldAfter(LATE_REGISTER, more, limit, Token(0, 1));
    assert map[Token(0, 1) := Token(0, 1)].Keys == {Token(0, 1)};
  }
}
