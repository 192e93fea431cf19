/** server/src/middleware/idempotency.ts: keyed requests. Lookup, insert of the key row, run of the handler,
    sending of the answer and its later persisting are separate steps, and the steps of any number of
    requests interleave freely. The request hash is taken as the body itself. */
module Idempotency {
  import opened Schema
  import Wallet
  import WalletAmounts

  type RequestId = nat

  /** The unique key of the table. The user is a worker, known by the worker's profile. */
  datatype Key = Key(user: WorkerId, route: string, header: string)

  datatype Body = Body(amount: real, payout: string)

  /** No body stands for JSON null: what is stored for an undefined body, and read back as null. */
  datatype Response = Response(code: nat, body: Option<nat>)

  datatype Refusal = KeyReuse | KeyInProgress

  datatype Phase =
    | Arrived
    | SawNoRow
    | Running
    | Executed(response: Response)
    | Answered(response: Response, saving: bool)
    | Replayed(response: Response)
    | Refused(refusal: Refusal)

  datatype Request = Request(key: Key, body: Body, phase: Phase)

  /** A key row is IN_PROGRESS until an answer is stored. `owner` remembers whose insert succeeded. */
  datatype KeyRow = KeyRow(hash: Body, owner: RequestId, stored: Option<Response>)

  /** A ledger row posted by the handler of a keyed request. */
  datatype Posting = Posting(key: Key, row: CreditRow)

  datatype Server = Server(
    now: nat,
    rows: map<Key, KeyRow>,
    requests: map<RequestId, Request>,
    ledger: seq<CreditRow>,
    postings: seq<Posting>)

  /** What the wrapped handler does: the redemption handler, or any other one. */
  datatype Effect = RedeemWallet | Other(response: Response)

  datatype Action =
    | Arrive(id: RequestId, key: Key, body: Body)
    | LookUp(id: RequestId)
    | InsertKey(id: RequestId)
    | Execute(id: RequestId, effect: Effect)
    | SendJson(id: RequestId)
    | Persist(id: RequestId)
    | PersistFails(id: RequestId)
    | PostUnkeyed(row: CreditRow)
    | Pass(ms: nat)

  function SetPhase(s: Server, id: RequestId, phase: Phase): Server
    requires id in s.requests
  {
    s.(requests := s.requests[id := s.requests[id].(phase := phase)])
  }

  predicate Possible(s: Server, action: Action) {
    match action
    case Arrive(id, _, _) => id !in s.requests
    case LookUp(id) => id in s.requests && s.requests[id].phase.Arrived?
    case InsertKey(id) => id in s.requests && s.requests[id].phase.SawNoRow?
    case Execute(id, _) => id in s.requests && s.requests[id].phase.Running?
    case SendJson(id) => id in s.requests && s.requests[id].phase.Executed?
    case Persist(id) => id in s.requests && s.requests[id].phase.Answered? && s.requests[id].phase.saving
    case PersistFails(id) => id in s.requests && s.requests[id].phase.Answered? && s.requests[id].phase.saving
    case PostUnkeyed(_) => true
    case Pass(_) => true
  }

  /** What an existing key row says to a request. */
  function Verdict(row: KeyRow, body: Body): Phase {
    if row.hash != body then Refused(KeyReuse)
    else if row.stored.Some? && row.stored.value.body.Some? then Replayed(row.stored.value)
    else Refused(KeyInProgress)
  }

  /** The handlers' answers: 200 with the transaction's id, or an error body. */
  function RedeemResponse(reply: Wallet.Reply, id: nat): Response {
    match reply
    case Posted => Response(200, Some(id))
    case InsufficientBalance => Response(409, Some(0))
    case _ => Response(400, Some(0))
  }

  function ExecuteRedeem(s: Server, id: RequestId): Server
    requires id in s.requests
  {
    var request := s.requests[id];
    var (ledger, reply) := Wallet.Withdraw(s.ledger, Wallet.Redeem, request.key.user, request.body.amount, s.now);
    var answered := SetPhase(s, id, Executed(RedeemResponse(reply, |s.ledger|)));
    if reply == Wallet.Posted
    then answered.(ledger := ledger, postings := s.postings + [Posting(request.key, ledger[|s.ledger|])])
    else answered
  }

  function Act(s: Server, action: Action): Server
    requires Possible(s, action)
  {
    match action
    case Arrive(id, key, body) => s.(requests := s.requests[id := Request(key, body, Arrived)])
    case LookUp(id) =>
      var request := s.requests[id];
      SetPhase(s, id, if request.key in s.rows then Verdict(s.rows[request.key], request.body) else SawNoRow)
    case InsertKey(id) =>
      var request := s.requests[id];
      // The unique constraint decides, whatever body the winner had.
      if request.key in s.rows then SetPhase(s, id, Refused(KeyInProgress))
      else SetPhase(s, id, Running).(rows := s.rows[request.key := KeyRow(request.body, id, None)])
    case Execute(id, RedeemWallet) => ExecuteRedeem(s, id)
    case Execute(id, Other(response)) => SetPhase(s, id, Executed(response))
    case SendJson(id) => SetPhase(s, id, Answered(s.requests[id].phase.response, true))
    case Persist(id) =>
      var response, key := s.requests[id].phase.response, s.requests[id].key;
      var saved := SetPhase(s, id, Answered(response, false));
      if key in s.rows then saved.(rows := s.rows[key := s.rows[key].(stored := Some(response))]) else saved
    case PersistFails(id) => SetPhase(s, id, Answered(s.requests[id].phase.response, false))
    case PostUnkeyed(row) => s.(ledger := s.ledger + [row])
    case Pass(ms) => s.(now := s.now + ms)
  }

  /** The service as the middleware changes it. */
  class Service {
    var now: nat
    var rows: map<Key, KeyRow>
    var requests: map<RequestId, Request>
    var ledger: seq<CreditRow>
    var postings: seq<Posting>

    function Snapshot(): Server
      reads this
    {
      Server(now, rows, requests, ledger, postings)
    }

    constructor (now: nat, ledger: seq<CreditRow>)
      ensures Snapshot() == Idle(now, ledger)
    {
      this.now, rows, requests, this.ledger, postings := now, map[], map[], ledger, [];
    }

    method Enter(id: RequestId)
      requires Possible(Snapshot(), LookUp(id))
      modifies this
      ensures Snapshot() == Act(old(Snapshot()), LookUp(id))
    {
      var request := requests[id];
      if request.key in rows {
        var existing := rows[request.key];
        if existing.hash != request.body {
          requests := requests[id := request.(phase := Refused(KeyReuse))];
          return;
        }
        if existing.stored.Some? && existing.stored.value.body.Some? {
          requests := requests[id := request.(phase := Replayed(existing.stored.value))];
          return;
        }
        requests := requests[id := request.(phase := Refused(KeyInProgress))];
        return;
      }
      requests := requests[id := request.(phase := SawNoRow)];
    }

    method Claim(id: RequestId) returns (next: bool)
      requires Possible(Snapshot(), InsertKey(id))
      modifies this
      ensures Snapshot() == Act(old(Snapshot()), InsertKey(id))
      ensures next == requests[id].phase.Running?
    {
      var request := requests[id];
      if request.key in rows {
        requests := requests[id := request.(phase := Refused(KeyInProgress))];
        return false;
      }
      rows := rows[request.key := KeyRow(request.body, id, None)];
      requests := requests[id := request.(phase := Running)];
      return true;
    }

    /** The replaced res.json, and the update it starts but does not wait for. */
    method Json(id: RequestId, stored: bool)
      requires Possible(Snapshot(), SendJson(id))
      modifies this
      ensures Snapshot() == Act(Act(old(Snapshot()), SendJson(id)), if stored then Persist(id) else PersistFails(id))
    {
      var request := requests[id];
      requests := requests[id := request.(phase := Answered(request.phase.response, false))];
      if stored && request.key in rows {
        rows := rows[request.key := rows[request.key].(stored := Some(request.phase.response))];
      }
    }
  }

  predicate PossibleAll(s: Server, actions: seq<Action>)
    decreases |actions|
  {
    actions != [] ==> Possible(s, actions[0]) && PossibleAll(Act(s, actions[0]), actions[1..])
  }

  function ActAll(s: Server, actions: seq<Action>): Server
    requires PossibleAll(s, actions)
    decreases |actions|
  {
    if actions == [] then s else ActAll(Act(s, actions[0]), actions[1..])
  }

  /** The handler of this request was started, finished, or has answered. */
  predicate Ran(phase: Phase) { phase.Running? || phase.Executed? || phase.Answered? }

  predicate RowRight(s: Server, key: Key)
    requires key in s.rows
  {
    var row := s.rows[key];
    && row.owner in s.requests
    && s.requests[row.owner].key == key
    && s.requests[row.owner].body == row.hash
    && Ran(s.requests[row.owner].phase)
    && (row.stored.Some? ==> s.requests[row.owner].phase == Answered(row.stored.value, false))
  }

  predicate RequestRight(s: Server, id: RequestId)
    requires id in s.requests
  {
    var request := s.requests[id];
    && (Ran(request.phase) ==> request.key in s.rows && s.rows[request.key].owner == id)
    && (request.phase.Replayed? ==>
          && request.key in s.rows
          && s.rows[request.key].hash == request.body
          && s.rows[request.key].stored == Some(request.phase.response))
  }

  /** A key's one ledger row is its owner's, posted when the owner's handler ran. */
  predicate PostingRight(s: Server, i: nat)
    requires i < |s.postings|
  {
    var key := s.postings[i].key;
    && key in s.rows
    && s.rows[key].owner in s.requests
    && !s.requests[s.rows[key].owner].phase.Running?
    && (forall j: nat | j < |s.postings| && s.postings[j].key == key :: j == i)
  }

  ghost predicate Exclusive(s: Server) {
    && (forall key | key in s.rows :: RowRight(s, key))
    && (forall id | id in s.requests :: RequestRight(s, id))
    && (forall i: nat | i < |s.postings| :: PostingRight(s, i))
  }

  lemma ActKeepsRows(s: Server, action: Action)
    requires Exclusive(s) && Possible(s, action)
    ensures forall key | key in Act(s, action).rows :: RowRight(Act(s, action), key)
  {
    hide Wallet.Withdraw, RedeemResponse;
    var t := Act(s, action);
    forall key | key in t.rows
      ensures RowRight(t, key)
    {
      if key in s.rows {
        assert RowRight(s, key);
      }
      if action.Persist? {
        assert RequestRight(s, action.id);
      }
    }
  }

  lemma ActKeepsRequests(s: Server, action: Action)
    requires Exclusive(s) && Possible(s, action)
    ensures forall id | id in Act(s, action).requests :: RequestRight(Act(s, action), id)
  {
  }

  lemma RunningHasNotPosted(s: Server, id: RequestId)
    requires Exclusive(s) && id in s.requests && s.requests[id].phase.Running?
    ensures forall i: nat | i < |s.postings| :: s.postings[i].key != s.requests[id].key
  {
    assert RequestRight(s, id);
    forall i: nat | i < |s.postings|
      ensures s.postings[i].key != s.requests[id].key
    {
      assert PostingRight(s, i);
    }
  }

  lemma ActKeepsPostings(s: Server, action: Action)
    requires Exclusive(s) && Possible(s, action)
    ensures forall i: nat | i < |Act(s, action).postings| :: PostingRight(Act(s, action), i)
  {
    var t := Act(s, action);
    if action.Execute? {
      RunningHasNotPosted(s, action.id);
      assert RequestRight(s, action.id);
    }
    forall i: nat | i < |t.postings|
      ensures PostingRight(t, i)
    {
      if i < |s.postings| {
        assert PostingRight(s, i);
      }
    }
  }

  lemma {:induction false} RunKeepsExclusive(s: Server, actions: seq<Action>)
    requires Exclusive(s) && PossibleAll(s, actions)
    ensures Exclusive(ActAll(s, actions))
    decreases |actions|
  {
    if actions != [] {
      ActKeepsRows(s, actions[0]);
      ActKeepsRequests(s, actions[0]);
      ActKeepsPostings(s, actions[0]);
      RunKeepsExclusive(Act(s, actions[0]), actions[1..]);
    }
  }

  /** For each key one request at most runs the handler, and a replay is answered with that run's response,
      to the same body. */
  lemma HandlerRunsAtMostOnce(s: Server, actions: seq<Action>, first: RequestId, second: RequestId)
    requires Exclusive(s) && PossibleAll(s, actions)
    ensures var t := ActAll(s, actions);
            first in t.requests && second in t.requests && t.requests[first].key == t.requests[second].key &&
            Ran(t.requests[first].phase) ==>
              && (Ran(t.requests[second].phase) ==> first == second)
              && (t.requests[second].phase.Replayed? ==>
                    && t.requests[second].body == t.requests[first].body
                    && t.requests[first].phase == Answered(t.requests[second].phase.response, false))
  {
    RunKeepsExclusive(s, actions);
    var t := ActAll(s, actions);
    if first in t.requests && second in t.requests && t.requests[first].key == t.requests[second].key &&
       Ran(t.requests[first].phase) {
      assert RequestRight(t, first) && RequestRight(t, second);
      assert RowRight(t, t.requests[first].key);
    }
  }

  /** Some request with the key has run the handler, or is running it. */
  predicate HasRun(s: Server, key: Key) {
    exists id :: id in s.requests && s.requests[id].key == key && Ran(s.requests[id].phase)
  }

  lemma RowIffRun(s: Server, key: Key)
    requires Exclusive(s)
    ensures key in s.rows <==> HasRun(s, key)
  {
    if key in s.rows {
      assert RowRight(s, key);
    }
    if HasRun(s, key) {
      var id :| id in s.requests && s.requests[id].key == key && Ran(s.requests[id].phase);
      assert RequestRight(s, id);
    }
  }

  /** A request gets past the lookup, and then past the insert, exactly when no request with its key got there
      before; past both it runs the handler. */
  lemma FreshKeyRunsIff(s: Server, id: RequestId)
    requires Exclusive(s)
    ensures Possible(s, LookUp(id)) ==>
              (Act(s, LookUp(id)).requests[id].phase == SawNoRow <==> !HasRun(s, s.requests[id].key))
    ensures Possible(s, InsertKey(id)) ==>
              (Act(s, InsertKey(id)).requests[id].phase == Running <==> !HasRun(s, s.requests[id].key))
    ensures Possible(s, InsertKey(id)) && HasRun(s, s.requests[id].key) ==>
              Act(s, InsertKey(id)) == SetPhase(s, id, Refused(KeyInProgress))
  {
    hide Exclusive, HasRun;
    if id in s.requests {
      RowIffRun(s, s.requests[id].key);
    }
  }

  predicate Undecided(phase: Phase) { phase.Arrived? || phase.SawNoRow? }

  /** Whoever was turned away was turned away because of a row. */
  ghost predicate Founded(s: Server) {
    forall id | id in s.requests && !Undecided(s.requests[id].phase) :: s.requests[id].key in s.rows
  }

  lemma ActKeepsFounded(s: Server, action: Action)
    requires Founded(s) && Possible(s, action)
    ensures Founded(Act(s, action))
  {
  }

  lemma {:induction false} RunKeepsFounded(s: Server, actions: seq<Action>)
    requires Founded(s) && PossibleAll(s, actions)
    ensures Founded(ActAll(s, actions))
    decreases |actions|
  {
    if actions != [] {
      ActKeepsFounded(s, actions[0]);
      RunKeepsFounded(Act(s, actions[0]), actions[1..]);
    }
  }

  /** Once any request with a key is decided, whichever way, exactly one with that key has run the handler, or is
      running it. */
  lemma HandlerRunsExactlyOnce(now: nat, ledger: seq<CreditRow>, actions: seq<Action>, id: RequestId)
    requires PossibleAll(Idle(now, ledger), actions)
    requires var t := ActAll(Idle(now, ledger), actions); id in t.requests && !Undecided(t.requests[id].phase)
    ensures var t := ActAll(Idle(now, ledger), actions);
            exists owner ::
              && owner in t.requests && t.requests[owner].key == t.requests[id].key && Ran(t.requests[owner].phase)
              && forall other | other in t.requests && t.requests[other].key == t.requests[id].key
                                && Ran(t.requests[other].phase) :: other == owner
  {
    var s := Idle(now, ledger);
    var t := ActAll(s, actions);
    RunKeepsFounded(s, actions);
    RunKeepsExclusive(s, actions);
    RowIffRun(t, t.requests[id].key);
    var owner :| owner in t.requests && t.requests[owner].key == t.requests[id].key && Ran(t.requests[owner].phase);
    forall other | other in t.requests && t.requests[other].key == t.requests[id].key && Ran(t.requests[other].phase)
      ensures other == owner
    {
      HandlerRunsAtMostOnce(s, actions, owner, other);
    }
  }

  /** Nothing is replayed out of the blue: some request of the same key did run. */
  lemma ReplayHasARun(s: Server, actions: seq<Action>, id: RequestId)
    requires Exclusive(s) && PossibleAll(s, actions)
    ensures var t := ActAll(s, actions);
            id in t.requests && t.requests[id].phase.Replayed? ==>
              exists owner :: && owner in t.requests && t.requests[owner].key == t.requests[id].key
                              && Ran(t.requests[owner].phase)
  {
    RunKeepsExclusive(s, actions);
    var t := ActAll(s, actions);
    if id in t.requests && t.requests[id].phase.Replayed? {
      assert RequestRight(t, id);
      assert RowRight(t, t.requests[id].key);
    }
  }

  function UnkeyedPostings(actions: seq<Action>): nat {
    if actions == [] then 0 else (if actions[0].PostUnkeyed? then 1 else 0) + UnkeyedPostings(actions[1..])
  }

  lemma {:induction false} LedgerGrowth(s: Server, actions: seq<Action>)
    requires PossibleAll(s, actions)
    ensures var t := ActAll(s, actions);
            |t.ledger| - |t.postings| == |s.ledger| - |s.postings| + UnkeyedPostings(actions)
    decreases |actions|
  {
    if actions != [] {
      LedgerGrowth(Act(s, actions[0]), actions[1..]);
    }
  }

  /** The keys that requests arrive with. */
  function KeysOf(actions: seq<Action>): set<Key> {
    if actions == [] then {} else (if actions[0].Arrive? then {actions[0].key} else {}) + KeysOf(actions[1..])
  }

  lemma {:induction false} PostingsCarryKeys(s: Server, actions: seq<Action>, keys: set<Key>)
    requires PossibleAll(s, actions) && KeysOf(actions) <= keys
    requires forall id | id in s.requests :: s.requests[id].key in keys
    requires forall i | 0 <= i < |s.postings| :: s.postings[i].key in keys
    ensures forall i | 0 <= i < |ActAll(s, actions).postings| :: ActAll(s, actions).postings[i].key in keys
    decreases |actions|
  {
    if actions != [] {
      PostingsCarryKeys(Act(s, actions[0]), actions[1..], keys);
    }
  }

  lemma {:induction false} NoMoreThanKeys(postings: seq<Posting>, keys: set<Key>)
    requires forall i | 0 <= i < |postings| :: postings[i].key in keys
    requires forall i, j | 0 <= i < j < |postings| :: postings[i].key != postings[j].key
    ensures |postings| <= |keys|
    decreases |postings|
  {
    if postings != [] {
      var n := |postings| - 1;
      NoMoreThanKeys(postings[..n], keys - {postings[n].key});
    }
  }

  function Idle(now: nat, ledger: seq<CreditRow>): Server {
    Server(now, map[], map[], ledger, [])
  }

  /** Redemptions under any keys, each retried any number of times with whatever bodies and in whatever
      interleaving: no key posts more than one row, so the ledger grows by at most one row a key. */
  lemma KeyedRetriesPostOnce(now: nat, ledger: seq<CreditRow>, actions: seq<Action>)
    requires PossibleAll(Idle(now, ledger), actions)
    ensures var t := ActAll(Idle(now, ledger), actions);
            && (forall i, j | 0 <= i < j < |t.postings| :: t.postings[i].key != t.postings[j].key)
            && |t.ledger| == |ledger| + UnkeyedPostings(actions) + |t.postings|
            && |t.postings| <= |KeysOf(actions)|
  {
    var s := Idle(now, ledger);
    var t := ActAll(s, actions);
    RunKeepsExclusive(s, actions);
    LedgerGrowth(s, actions);
    PostingsCarryKeys(s, actions, KeysOf(actions));
    forall i, j | 0 <= i < j < |t.postings|
      ensures t.postings[i].key != t.postings[j].key
    {
      assert PostingRight(t, i);
    }
    NoMoreThanKeys(t.postings, KeysOf(actions));
  }

  // What a redemption answers.

  function ResponseOf(phase: Phase): Option<Response> {
    match phase
    case Executed(response) => Some(response)
    case Answered(response, _) => Some(response)
    case Replayed(response) => Some(response)
    case _ => None
  }

  /** The response is a success that names a ledger row posted under the key, or not a success. */
  ghost predicate NamesRow(s: Server, key: Key, response: Response) {
    if response.code != 200 then response.code in {400, 409}
    else
      && response.body.Some? && response.body.value < |s.ledger|
      && exists i: nat :: i < |s.postings| && s.postings[i] == Posting(key, s.ledger[response.body.value])
  }

  ghost predicate NamesRows(s: Server) {
    && (forall id | id in s.requests && ResponseOf(s.requests[id].phase).Some? ::
          NamesRow(s, s.requests[id].key, ResponseOf(s.requests[id].phase).value))
    && (forall key | key in s.rows && s.rows[key].stored.Some? :: NamesRow(s, key, s.rows[key].stored.value))
  }

  /** Success means that the redemption was posted and took what was asked for; any other answer that nothing was. */
  lemma RedemptionAnswers(s: Server, id: RequestId)
    requires Possible(s, Execute(id, RedeemWallet))
    ensures var (t, request) := (Act(s, Execute(id, RedeemWallet)), s.requests[id]);
            && ResponseOf(t.requests[id].phase).Some?
            && var response := ResponseOf(t.requests[id].phase).value;
               && NamesRow(t, request.key, response)
               && (if response.code == 200
                   then |t.ledger| == |s.ledger| + 1 && response.body == Some(|s.ledger|)
                        && WalletAmounts.Moves(s.ledger, t.ledger, request.key.user, -request.body.amount)
                   else t.ledger == s.ledger && t.postings == s.postings)
               && (response.code == 400 <==> request.body.amount <= 0.0)
  {
    var (key, amount) := (s.requests[id].key, s.requests[id].body.amount);
    var (ledger, reply) := Wallet.Withdraw(s.ledger, Wallet.Redeem, key.user, amount, s.now);
    WalletAmounts.WithdrawalTakesWhatWasAsked(s.ledger, Wallet.Redeem, key.user, amount, s.now);
    WithdrawalAppends(s.ledger, key.user, amount, s.now);
    hide WalletAmounts.Moves, Wallet.Withdraw;
    var t := ExecuteRedeem(s, id);
    assert t == Act(s, Execute(id, RedeemWallet));
    if reply == Wallet.Posted {
      assert t.postings[|s.postings|] == Posting(key, t.ledger[|s.ledger|]);
    }
  }

  lemma WithdrawalAppends(ledger: seq<CreditRow>, w: WorkerId, amount: real, now: nat)
    ensures var (after, reply) := Wallet.Withdraw(ledger, Wallet.Redeem, w, amount, now);
            && (reply == Wallet.Posted ==> |after| == |ledger| + 1 && ledger <= after)
            && (reply == Wallet.InvalidAmount <==> amount <= 0.0)
            && reply in {Wallet.Posted, Wallet.InvalidAmount, Wallet.InsufficientBalance}
  {
  }

  lemma NamedRowStays(s: Server, t: Server, key: Key, response: Response)
    requires NamesRow(s, key, response) && s.ledger <= t.ledger && s.postings <= t.postings
    ensures NamesRow(t, key, response)
  {
    if response.code == 200 {
      var i: nat :| i < |s.postings| && s.postings[i] == Posting(key, s.ledger[response.body.value]);
      assert t.postings[i] == Posting(key, t.ledger[response.body.value]);
    }
  }

  /** What an execution touches besides its request's phase: the ledger and the postings, which grow. */
  lemma RedemptionTouches(s: Server, id: RequestId)
    requires Possible(s, Execute(id, RedeemWallet))
    ensures var t := Act(s, Execute(id, RedeemWallet));
            && t.rows == s.rows && t.requests.Keys == s.requests.Keys
            && s.ledger <= t.ledger && s.postings <= t.postings
            && (forall other | other in s.requests :: t.requests[other].key == s.requests[other].key)
            && (forall other | other in s.requests && other != id :: t.requests[other] == s.requests[other])
  {
    var request := s.requests[id];
    WithdrawalAppends(s.ledger, request.key.user, request.body.amount, s.now);
    hide Wallet.Withdraw;
  }

  lemma RedemptionKeepsNamesRows(s: Server, id: RequestId)
    requires NamesRows(s) && Possible(s, Execute(id, RedeemWallet))
    ensures NamesRows(Act(s, Execute(id, RedeemWallet)))
  {
    RedemptionAnswers(s, id);
    RedemptionTouches(s, id);
    hide NamesRow, Act;
    var t := Act(s, Execute(id, RedeemWallet));
    forall key, response | NamesRow(s, key, response)
      ensures NamesRow(t, key, response)
    {
      NamedRowStays(s, t, key, response);
    }
  }

  lemma OtherActsKeepNamesRows(s: Server, action: Action)
    requires NamesRows(s) && Possible(s, action) && !action.Execute?
    ensures NamesRows(Act(s, action))
  {
    var t := Act(s, action);
    hide NamesRow;
    assert s.ledger <= t.ledger && s.postings == t.postings;
    forall key, response | NamesRow(s, key, response)
      ensures NamesRow(t, key, response)
    {
      NamedRowStays(s, t, key, response);
    }
  }

  lemma {:induction false} RunKeepsNamesRows(s: Server, actions: seq<Action>)
    requires NamesRows(s) && PossibleAll(s, actions)
    requires forall i | 0 <= i < |actions| && actions[i].Execute? :: actions[i].effect.RedeemWallet?
    ensures NamesRows(ActAll(s, actions))
    decreases |actions|
  {
    if actions != [] {
      if actions[0].Execute? {
        RedemptionKeepsNamesRows(s, actions[0].id);
      } else {
        OtherActsKeepNamesRows(s, actions[0]);
      }
      hide Act, NamesRows;
      RunKeepsNamesRows(Act(s, actions[0]), actions[1..]);
    }
  }

  /** The answers to redemptions tell the truth, replayed ones too: a success names a row that was posted under
      the request's own key. */
  lemma RedemptionsNameTheirRow(now: nat, ledger: seq<CreditRow>, actions: seq<Action>, id: RequestId)
    requires PossibleAll(Idle(now, ledger), actions)
    requires forall i | 0 <= i < |actions| && actions[i].Execute? :: actions[i].effect.RedeemWallet?
    ensures var t := ActAll(Idle(now, ledger), actions);
            id in t.requests && ResponseOf(t.requests[id].phase).Some? ==>
              NamesRow(t, t.requests[id].key, ResponseOf(t.requests[id].phase).value)
  {
    RunKeepsNamesRows(Idle(now, ledger), actions);
  }

  /** The answer of the key's run was persisted. */
  predicate Stored(s: Server, key: Key, response: Response) {
    key in s.rows && s.rows[key].stored == Some(response)
  }

  lemma PersistingStores(s: Server, id: RequestId)
    requires Exclusive(s) && Possible(s, Persist(id))
    ensures Stored(Act(s, Persist(id)), s.requests[id].key, s.requests[id].phase.response)
  {
    assert RequestRight(s, id);
  }

  lemma ActKeepsStored(s: Server, action: Action, key: Key, response: Response)
    requires Exclusive(s) && Possible(s, action) && Stored(s, key, response)
    ensures Stored(Act(s, action), key, response) && Act(s, action).rows[key].hash == s.rows[key].hash
  {
    assert RowRight(s, key);
    if action.Persist? {
      assert RequestRight(s, action.id);
    }
  }

  /** Once the answer is stored, every later request with the key is answered from it, whatever happens in
      between: replayed when it has the run's body and the answer has one, refused otherwise. */
  lemma {:induction false} StoredAnswerIsReplayed(s: Server, actions: seq<Action>, key: Key, response: Response,
                                                  id: RequestId)
    requires Exclusive(s) && PossibleAll(s, actions) && Stored(s, key, response)
    requires Possible(ActAll(s, actions), LookUp(id)) && ActAll(s, actions).requests[id].key == key
    ensures Act(ActAll(s, actions), LookUp(id)).requests[id].phase ==
            if ActAll(s, actions).requests[id].body != s.rows[key].hash then Refused(KeyReuse)
            else if response.body.Some? then Replayed(response)
            else Refused(KeyInProgress)
    decreases |actions|
  {
    if actions != [] {
      var t := Act(s, actions[0]);
      ActKeepsRows(s, actions[0]);
      ActKeepsRequests(s, actions[0]);
      ActKeepsPostings(s, actions[0]);
      ActKeepsStored(s, actions[0], key, response);
      StoredAnswerIsReplayed(t, actions[1..], key, response, id);
    }
  }

  /** The answer can no longer be stored: it was sent and its persisting failed. */
  predicate Lost(s: Server, key: Key) {
    && key in s.rows
    && s.rows[key].stored == None
    && s.rows[key].owner in s.requests
    && s.requests[s.rows[key].owner].phase.Answered?
    && !s.requests[s.rows[key].owner].phase.saving
  }

  lemma ActKeepsLost(s: Server, action: Action, key: Key)
    requires Exclusive(s) && Possible(s, action) && Lost(s, key)
    ensures Lost(Act(s, action), key)
  {
  }

  /** A lost answer is never made up for: no retry under that key runs the handler again or is replayed. */
  lemma {:induction false} LostAnswerIsNeverReplayed(s: Server, actions: seq<Action>, key: Key, id: RequestId)
    requires Exclusive(s) && PossibleAll(s, actions) && Lost(s, key)
    ensures var t := ActAll(s, actions);
            id in t.requests && t.requests[id].key == key ==>
              && !t.requests[id].phase.Replayed?
              && (Ran(t.requests[id].phase) ==> id == s.rows[key].owner)
    decreases |actions|
  {
    if actions == [] {
      if id in s.requests {
        assert RequestRight(s, id);
      }
    } else {
      var t := Act(s, actions[0]);
      ActKeepsRows(s, actions[0]);
      ActKeepsRequests(s, actions[0]);
      ActKeepsPostings(s, actions[0]);
      ActKeepsLost(s, actions[0], key);
      assert t.rows[key].owner == s.rows[key].owner;
      LostAnswerIsNeverReplayed(t, actions[1..], key, id);
    }
  }
}
