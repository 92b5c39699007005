/** The token registry: a Redis cache in front of the stablecoin_tokens table
    (internal/stablecoin/registry.go, internal/storage/stablecoin.go). */
module Registry {
  import opened Wrappers
  import Amount

  // ---- Names ----

  /** strings.ToLower as far as it can produce ASCII; other letters are left alone, which no comparison with a
      normalised token can notice. */
  function LowerChar(c: char): char {
    if 'A' <= c <= 'Z' then c - 'A' + 'a'
    else if c == '\U{0130}' then 'i'
    else if c == '\U{212A}' then 'k'
    else c
  }

  function Lower(s: string): (r: string)
    ensures |r| == |s|
  {
    seq(|s|, i requires 0 <= i < |s| => LowerChar(s[i]))
  }

  /** The characters that become a letter. */
  lemma LowerToLetterIff(c: char)
    ensures 'a' <= LowerChar(c) <= 'z' <==> ('a' <= c <= 'z' || 'A' <= c <= 'Z' || c == '\U{0130}' || c == '\U{212A}')
    ensures LowerChar(c) == 'u' <==> c == 'u' || c == 'U'
  {
  }

  lemma LowerTwice(s: string)
    ensures Lower(Lower(s)) == Lower(s)
  {
  }

  lemma LowerNormal(token: string)
    requires Normal(token)
    ensures Lower(token) == token
  {
    forall i | 0 <= i < |token| ensures Lower(token)[i] == token[i] {
      assert TokenChar(token[i]);
    }
  }

  predicate TokenChar(c: char) {
    'a' <= c <= 'z' || '0' <= c <= '9'
  }

  predicate Normal(token: string) {
    2 <= |token| <= 10 && forall i :: 0 <= i < |token| ==> TokenChar(token[i])
  }

  datatype TokenError = TokenRequired | TokenInvalid | TokenLength

  /** ParseToken, whose result is what the registry is asked for. */
  method ParseToken(s: string) returns (r: Result<string, TokenError>)
    ensures r.Ok? <==> Normal(Lower(Amount.TrimSpace(s)))
    ensures r.Ok? ==> r.value == Lower(Amount.TrimSpace(s))
    ensures r == Err(TokenRequired) <==> Amount.TrimSpace(s) == ""
    ensures r == Err(TokenInvalid) <==>
      exists i :: 0 <= i < |Lower(Amount.TrimSpace(s))| && !TokenChar(Lower(Amount.TrimSpace(s))[i])
  {
    var t := Lower(Amount.TrimSpace(s));
    if t == "" {
      return Err(TokenRequired);
    }
    for i := 0 to |t|
      invariant forall j :: 0 <= j < i ==> TokenChar(t[j])
    {
      if !(('a' <= t[i] <= 'z') || ('0' <= t[i] <= '9')) {
        return Err(TokenInvalid);
      }
    }
    if |t| < 2 || |t| > 10 {
      return Err(TokenLength);
    }
    return Ok(t);
  }

  datatype Chain = Evm | Solana

  function ChainText(c: Chain): string {
    if c.Evm? then "evm" else "solana"
  }

  const PREFIX := "vaultkey:stablecoin:"
  const LIST_KEY: string := PREFIX + "list"

  function Key(token: string, chain: Chain, chainID: string): string {
    PREFIX + (token + (":" + (ChainText(chain) + (":" + chainID))))
  }

  function UpToColon(s: string): string {
    if s == "" || s[0] == ':' then "" else [s[0]] + UpToColon(s[1..])
  }

  lemma {:induction false} UpToColonOf(a: string, x: string)
    requires ':' !in a
    ensures UpToColon(a + (":" + x)) == a
    decreases |a|
  {
    if a == "" {
      assert a + (":" + x) == ":" + x;
    } else {
      assert (a + (":" + x))[1..] == a[1..] + (":" + x);
      UpToColonOf(a[1..], x);
      assert a == [a[0]] + a[1..];
    }
  }

  lemma ColonSplit(a: string, b: string, x: string, y: string)
    requires ':' !in a && ':' !in b && a + (":" + x) == b + (":" + y)
    ensures a == b && x == y
  {
    UpToColonOf(a, x);
    UpToColonOf(b, y);
    assert x == (a + (":" + x))[|a| + 1..] && y == (b + (":" + y))[|b| + 1..];
  }

  /** Different look-ups of normalised tokens use different keys, and none of them is the key of the list. */
  lemma KeysDiffer(token: string, chain: Chain, chainID: string, token': string, chain': Chain, chainID': string)
    requires Normal(token) && Normal(token')
    ensures Key(token, chain, chainID) == Key(token', chain', chainID')
      ==> token == token' && chain == chain' && chainID == chainID'
    ensures Key(token, chain, chainID) != LIST_KEY
  {
    var rest, rest' := ChainText(chain) + (":" + chainID), ChainText(chain') + (":" + chainID');
    var k, k' := Key(token, chain, chainID), Key(token', chain', chainID');
    assert k[|PREFIX|..] == token + (":" + rest) && k'[|PREFIX|..] == token' + (":" + rest');
    if k == k' {
      ColonSplit(token, token', rest, rest');
      ColonSplit(ChainText(chain), ChainText(chain'), chainID, chainID');
      assert |ChainText(Evm)| != |ChainText(Solana)|;
    }
    assert ':' in k[|PREFIX|..] by { assert (token + (":" + rest))[|token|] == ':'; }
    assert LIST_KEY[|PREFIX|..] == "list" && ':' !in "list";
  }

  // ---- The table and the cache ----

  datatype Row = Row(token: string, chain: Chain, chainID: Option<string>, contract: string, decimals: nat, symbol: string, enabled: bool)

  datatype Entry = Entry(id: string, contract: string, decimals: nat, symbol: string)

  datatype Info = Info(entry: Entry, token: string, chain: Chain, chainID: string)

  type Table = map<string, Row>

  datatype Cached = One(entry: Entry) | All(infos: set<Info>)

  datatype State = State(rows: Table, cache: map<string, Cached>)

  /** COALESCE(chain_id, ''). */
  function Shown(chainID: Option<string>): string {
    if chainID.Some? then chainID.value else ""
  }

  /** The WHERE clause of GetStablecoinToken. */
  predicate Matches(r: Row, token: string, chain: Chain, chainID: string) {
    r.enabled && r.token == token && r.chain == chain && Shown(r.chainID) == chainID
  }

  function EntryOf(id: string, r: Row): Entry {
    Entry(id, r.contract, r.decimals, r.symbol)
  }

  function InfoOf(id: string, r: Row): Info {
    Info(EntryOf(id, r), r.token, r.chain, Shown(r.chainID))
  }

  function EnabledIDs(t: Table): set<string> {
    set id | id in t && t[id].enabled
  }

  function InfosOf(t: Table, ids: set<string>): set<Info> {
    set id | id in ids && id in t :: InfoOf(id, t[id])
  }

  function Enabled(t: Table): set<Info> {
    InfosOf(t, EnabledIDs(t))
  }

  predicate Serves(t: Table, e: Entry, token: string, chain: Chain, chainID: string) {
    e.id in t && Matches(t[e.id], token, chain, chainID) && e == EntryOf(e.id, t[e.id])
  }

  predicate Registered(t: Table, token: string, chain: Chain, chainID: string) {
    exists id :: id in t && Matches(t[id], token, chain, chainID)
  }

  /** The row an upsert conflicts with: NULL chain ids are distinct, so they never do. */
  predicate ConflictsWith(r: Row, token: string, chain: Chain, chainID: Option<string>) {
    chainID.Some? && r.token == token && r.chain == chain && r.chainID == chainID
  }

  datatype Op =
    | Resolve(token: string, chain: Chain, chainID: string, answer: Option<Entry>)
    | List(infos: set<Info>)
    | Upsert(rawToken: string, chain: Chain, rawChainID: string, contract: string, decimals: nat, symbol: string, id: string)
    | Disable(id: string)
    | Evict(key: string)               // the entry reaches its TTL, or Redis drops it

  function UpsertRow(op: Op): Row
    requires op.Upsert?
  {
    var chainID := Amount.TrimSpace(op.rawChainID);
    Row(Lower(Amount.TrimSpace(op.rawToken)), op.chain, if chainID == "" then None else Some(chainID),
        op.contract, op.decimals, op.symbol, true)
  }

  function Invalidated(cache: map<string, Cached>, r: Row): map<string, Cached> {
    cache - {Key(r.token, r.chain, Shown(r.chainID)), LIST_KEY}
  }

  predicate ResolveStep(s: State, s': State, token: string, chain: Chain, chainID: string, answer: Option<Entry>) {
    var k := Key(token, chain, chainID);
    if k in s.cache && s.cache[k].One? then s' == s && answer == Some(s.cache[k].entry)
    else if answer.None? then s' == s && !Registered(s.rows, Lower(token), chain, chainID)
    else Serves(s.rows, answer.value, Lower(token), chain, chainID) && s' == s.(cache := s.cache[k := One(answer.value)])
  }

  predicate ListStep(s: State, s': State, answer: set<Info>) {
    if LIST_KEY in s.cache && s.cache[LIST_KEY].All? then s' == s && answer == s.cache[LIST_KEY].infos
    else answer == Enabled(s.rows) && s' == s.(cache := s.cache[LIST_KEY := All(answer)])
  }

  predicate Upsertable(t: Table, r: Row, id: string) {
    if id in t then ConflictsWith(t[id], r.token, r.chain, r.chainID)
    else forall i :: i in t ==> !ConflictsWith(t[i], r.token, r.chain, r.chainID)
  }

  function DisabledRow(s: State, id: string): State {
    if id !in s.rows then s
    else
      var r := s.rows[id];
      State(s.rows[id := r.(enabled := false)], if r.enabled then Invalidated(s.cache, r) else s.cache)
  }

  /** One atomic operation with successful cache deletes. Which matching row a look-up gets is up to the database. */
  predicate Next(s: State, op: Op, s': State) {
    match op
    case Resolve(token, chain, chainID, answer) => ResolveStep(s, s', token, chain, chainID, answer)
    case List(answer) => ListStep(s, s', answer)
    case Upsert(_, _, _, _, _, _, id) =>
      Upsertable(s.rows, UpsertRow(op), id)
      && s' == State(s.rows[id := UpsertRow(op)], Invalidated(s.cache, UpsertRow(op)))
    case Disable(id) => s' == DisabledRow(s, id)
    case Evict(key) => s' == s.(cache := s.cache - {key})
  }

  predicate NormalOp(op: Op) {
    op.Resolve? ==> Normal(op.token)
  }

  // ---- Coherence ----

  predicate KeyCoherent(s: State, token: string, chain: Chain, chainID: string) {
    var k := Key(token, chain, chainID);
    k in s.cache ==> s.cache[k].One? && Serves(s.rows, s.cache[k].entry, token, chain, chainID)
  }

  ghost predicate Coherent(s: State) {
    && (forall token, chain, chainID :: Normal(token) ==> KeyCoherent(s, token, chain, chainID))
    && (LIST_KEY in s.cache ==> s.cache[LIST_KEY] == All(Enabled(s.rows)))
  }

  lemma ResolveKeepsCoherent(s: State, s': State, op: Op)
    requires Coherent(s) && op.Resolve? && Normal(op.token) && Next(s, op, s')
    ensures Coherent(s')
  {
    LowerNormal(op.token);
    forall token, chain, chainID | Normal(token) ensures KeyCoherent(s', token, chain, chainID) {
      KeysDiffer(op.token, op.chain, op.chainID, token, chain, chainID);
      assert KeyCoherent(s, token, chain, chainID);
    }
    KeysDiffer(op.token, op.chain, op.chainID, op.token, op.chain, op.chainID);
  }

  lemma ListKeepsCoherent(s: State, s': State, op: Op)
    requires Coherent(s) && op.List? && Next(s, op, s')
    ensures Coherent(s')
  {
    forall token, chain, chainID | Normal(token) ensures KeyCoherent(s', token, chain, chainID) {
      KeysDiffer(token, chain, chainID, token, chain, chainID);
      assert KeyCoherent(s, token, chain, chainID);
    }
  }

  /** Rewriting one row and invalidating the key of what it was, or of what it becomes. */
  lemma WriteKeepsCoherent(s: State, id: string, r: Row)
    requires Coherent(s)
    requires id in s.rows && s.rows[id].enabled ==>
      s.rows[id].token == r.token && s.rows[id].chain == r.chain && Shown(s.rows[id].chainID) == Shown(r.chainID)
    ensures Coherent(State(s.rows[id := r], Invalidated(s.cache, r)))
  {
    var s' := State(s.rows[id := r], Invalidated(s.cache, r));
    forall token, chain, chainID | Normal(token) ensures KeyCoherent(s', token, chain, chainID) {
      assert KeyCoherent(s, token, chain, chainID);
    }
  }

  lemma DisableKeepsCoherent(s: State, id: string)
    requires Coherent(s)
    ensures Coherent(DisabledRow(s, id))
  {
    if id in s.rows {
      if s.rows[id].enabled {
        WriteKeepsCoherent(s, id, s.rows[id].(enabled := false));
      } else {
        assert s.rows[id := s.rows[id].(enabled := false)] == s.rows;
      }
    }
  }

  lemma EvictKeepsCoherent(s: State, key: string)
    requires Coherent(s)
    ensures Coherent(s.(cache := s.cache - {key}))
  {
    var s' := s.(cache := s.cache - {key});
    forall token, chain, chainID | Normal(token) ensures KeyCoherent(s', token, chain, chainID) {
      assert KeyCoherent(s, token, chain, chainID);
    }
  }

  lemma NextKeepsCoherent(s: State, op: Op, s': State)
    requires Coherent(s) && NormalOp(op) && Next(s, op, s')
    ensures Coherent(s')
  {
    match op
    case Resolve(_, _, _, _) => ResolveKeepsCoherent(s, s', op);
    case List(_) => ListKeepsCoherent(s, s', op);
    case Upsert(_, _, _, _, _, _, id) => WriteKeepsCoherent(s, id, UpsertRow(op));
    case Disable(id) => DisableKeepsCoherent(s, id);
    case Evict(key) => EvictKeepsCoherent(s, key);
  }

  predicate IsRun(states: seq<State>, ops: seq<Op>) {
    |states| == |ops| + 1 && forall i :: 0 <= i < |ops| ==> Next(states[i], ops[i], states[i + 1])
  }

  lemma {:induction false} RunIsCoherent(states: seq<State>, ops: seq<Op>, i: nat)
    requires IsRun(states, ops) && states[0].cache == map[] && i <= |ops|
    requires forall op :: op in ops ==> NormalOp(op)
    ensures Coherent(states[i])
    decreases i
  {
    if i > 0 {
      RunIsCoherent(states, ops, i - 1);
      assert ops[i - 1] in ops;
      NextKeepsCoherent(states[i - 1], ops[i - 1], states[i]);
    }
  }

  /** Registry coherence: in every run of look-ups, lists, upserts, disables and evictions, the cache is invisible.
      A look-up answers a row that is enabled and matches at that moment, it answers none exactly when there is none,
      and the list is the set of enabled rows. */
  lemma CacheIsInvisible(states: seq<State>, ops: seq<Op>, i: nat)
    requires IsRun(states, ops) && states[0].cache == map[] && i < |ops|
    requires forall op :: op in ops ==> NormalOp(op)
    ensures ops[i].List? ==> ops[i].infos == Enabled(states[i].rows)
    ensures ops[i].Resolve? && ops[i].answer.Some? ==>
      Serves(states[i].rows, ops[i].answer.value, ops[i].token, ops[i].chain, ops[i].chainID)
    ensures ops[i].Resolve? ==>
      (ops[i].answer.None? <==> !Registered(states[i].rows, ops[i].token, ops[i].chain, ops[i].chainID))
  {
    RunIsCoherent(states, ops, i);
    assert ops[i] in ops && Next(states[i], ops[i], states[i + 1]);
    if ops[i].Resolve? {
      LowerNormal(ops[i].token);
      assert KeyCoherent(states[i], ops[i].token, ops[i].chain, ops[i].chainID);
    }
  }

  /** The entry shows what the enabled row of this id stores, and the row is one of the token asked for. */
  predicate ShowsRow(t: Table, e: Entry, token: string, chain: Chain, chainID: string) {
    && e.id in t && t[e.id].enabled
    && e.contract == t[e.id].contract && e.decimals == t[e.id].decimals && e.symbol == t[e.id].symbol
    && t[e.id].token == token && t[e.id].chain == chain
    && (t[e.id].chainID == Some(chainID) || (t[e.id].chainID == None && chainID == ""))
  }

  /** In every run, what a look-up or the list answers is what the table stores at that moment: the contract, the decimals
      and the symbol of an enabled row of the token asked for; and the list has every enabled row. */
  lemma AnswersAreStored(states: seq<State>, ops: seq<Op>, i: nat)
    requires IsRun(states, ops) && states[0].cache == map[] && i < |ops|
    requires forall op :: op in ops ==> NormalOp(op)
    ensures ops[i].Resolve? && ops[i].answer.Some? ==>
      ShowsRow(states[i].rows, ops[i].answer.value, ops[i].token, ops[i].chain, ops[i].chainID)
    ensures ops[i].List? ==>
      && (forall info :: info in ops[i].infos ==> ShowsRow(states[i].rows, info.entry, info.token, info.chain, info.chainID))
      && (forall id :: id in states[i].rows && states[i].rows[id].enabled ==> exists info :: info in ops[i].infos && info.entry.id == id)
  {
    CacheIsInvisible(states, ops, i);
    if ops[i].List? {
      forall id | id in states[i].rows && states[i].rows[id].enabled
        ensures exists info :: info in ops[i].infos && info.entry.id == id
      {
        assert InfoOf(id, states[i].rows[id]) in ops[i].infos && InfoOf(id, states[i].rows[id]).entry.id == id;
      }
    }
  }

  // ---- Writes and look-ups undo and find each other ----

  /** The UNIQUE constraint. */
  predicate UniqueRows(t: Table) {
    forall a, b :: a in t && b in t && ConflictsWith(t[a], t[b].token, t[b].chain, t[b].chainID) ==> a == b
  }

  /** No other row conflicts with one that can be upserted. */
  lemma OnlyConflict(t: Table, r: Row, id: string, other: string)
    requires UniqueRows(t) && Upsertable(t, r, id)
    ensures other in t && other != id ==> !ConflictsWith(t[other], r.token, r.chain, r.chainID)
  {
  }

  lemma NextKeepsUnique(s: State, op: Op, s': State)
    requires UniqueRows(s.rows) && Next(s, op, s')
    ensures UniqueRows(s'.rows)
  {
    if op.Upsert? {
      var r := UpsertRow(op);
      forall a, b | a in s'.rows && b in s'.rows && ConflictsWith(s'.rows[a], s'.rows[b].token, s'.rows[b].chain, s'.rows[b].chainID)
        ensures a == b
      {
        OnlyConflict(s.rows, r, op.id, a);
        OnlyConflict(s.rows, r, op.id, b);
      }
    }
  }

  /** An operation writes at most its own row: an upsert the columns it was given, a disable only the flag. */
  lemma WritesOneRow(s: State, op: Op, s': State)
    requires Next(s, op, s')
    ensures forall id :: id in s.rows && !((op.Upsert? || op.Disable?) && id == op.id) ==> id in s'.rows && s'.rows[id] == s.rows[id]
    ensures forall id :: id in s'.rows && !(op.Upsert? && id == op.id) ==> id in s.rows
    ensures op.Disable? && op.id in s.rows ==> s'.rows[op.id] == s.rows[op.id].(enabled := false)
    ensures op.Upsert? ==>
      (op.id in s'.rows
       && s'.rows[op.id].contract == op.contract && s'.rows[op.id].decimals == op.decimals && s'.rows[op.id].symbol == op.symbol
       && s'.rows[op.id].enabled && s'.rows[op.id].token == Lower(Amount.TrimSpace(op.rawToken)) && s'.rows[op.id].chain == op.chain)
  {
  }

  /** No row has the empty string for a chain id: NULLIF stored NULL. */
  predicate NoEmptyChain(t: Table) {
    forall id :: id in t ==> t[id].chainID != Some("")
  }

  lemma NextKeepsNoEmptyChain(s: State, op: Op, s': State)
    requires NoEmptyChain(s.rows) && Next(s, op, s')
    ensures NoEmptyChain(s'.rows)
  {
  }

  /** What the write results below ask of the table holds throughout every run from such a table. */
  lemma {:induction false} RunKeepsTable(states: seq<State>, ops: seq<Op>, i: nat)
    requires IsRun(states, ops) && UniqueRows(states[0].rows) && NoEmptyChain(states[0].rows) && i <= |ops|
    ensures UniqueRows(states[i].rows) && NoEmptyChain(states[i].rows)
    decreases i
  {
    if i > 0 {
      RunKeepsTable(states, ops, i - 1);
      NextKeepsUnique(states[i - 1], ops[i - 1], states[i]);
      NextKeepsNoEmptyChain(states[i - 1], ops[i - 1], states[i]);
    }
  }

  /** The row is the only enabled one that its look-up matches. */
  ghost predicate OnlyMatch(t: Table, r: Row, id: string) {
    forall i :: i in t && Matches(t[i], r.token, r.chain, Shown(r.chainID)) ==> i == id
  }

  /** After an upsert the row it wrote is the only enabled match of its look-up if and only if it has a chain id, so that
      it replaces the row before it, or none matched before: a Solana token upserted again stays registered twice. */
  lemma UpsertIsOnlyMatchIff(s: State, op: Op, s': State)
    requires UniqueRows(s.rows) && NoEmptyChain(s.rows) && op.Upsert? && Next(s, op, s')
    ensures var r := UpsertRow(op);
      && op.id in s'.rows && Matches(s'.rows[op.id], r.token, r.chain, Shown(r.chainID))
      && (OnlyMatch(s'.rows, r, op.id) <==> r.chainID.Some? || !Registered(s.rows, r.token, r.chain, Shown(r.chainID)))
  {
    var r := UpsertRow(op);
    if r.chainID.Some? {
      forall i | i in s'.rows && Matches(s'.rows[i], r.token, r.chain, Shown(r.chainID)) ensures i == op.id {
        OnlyConflict(s.rows, r, op.id, i);
      }
    } else if i :| i in s.rows && Matches(s.rows[i], r.token, r.chain, Shown(r.chainID)) {
      assert i in s'.rows && s'.rows[i] == s.rows[i];
    }
  }

  /** The look-up can answer nothing but this row. */
  ghost predicate MustAnswer(s: State, r: Row, id: string) {
    forall answer, s2 :: Next(s, Resolve(r.token, r.chain, Shown(r.chainID), answer), s2) ==> answer == Some(EntryOf(id, r))
  }

  lemma MissAnswersAny(s: State, r: Row, i: string)
    requires Key(r.token, r.chain, Shown(r.chainID)) !in s.cache
    requires i in s.rows && Matches(s.rows[i], r.token, r.chain, Shown(r.chainID)) && Lower(r.token) == r.token
    ensures var e := EntryOf(i, s.rows[i]);
      Next(s, Resolve(r.token, r.chain, Shown(r.chainID), Some(e)),
           s.(cache := s.cache[Key(r.token, r.chain, Shown(r.chainID)) := One(e)]))
  {
  }

  /** Whatever was cached and however the name was spelled, the next look-up of an upserted token must answer exactly what
      was upserted if and only if the row has a chain id or none matched before. */
  lemma UpsertAnswersIff(s: State, op: Op, s1: State)
    requires UniqueRows(s.rows) && NoEmptyChain(s.rows) && op.Upsert? && Next(s, op, s1)
    ensures var r := UpsertRow(op);
      MustAnswer(s1, r, op.id) <==> r.chainID.Some? || !Registered(s.rows, r.token, r.chain, Shown(r.chainID))
  {
    var r := UpsertRow(op);
    UpsertIsOnlyMatchIff(s, op, s1);
    LowerTwice(Amount.TrimSpace(op.rawToken));
    if OnlyMatch(s1.rows, r, op.id) {
      assert Registered(s1.rows, r.token, r.chain, Shown(r.chainID));
    } else {
      var i :| i in s1.rows && Matches(s1.rows[i], r.token, r.chain, Shown(r.chainID)) && i != op.id;
      MissAnswersAny(s1, r, i);
    }
  }

  /** Whatever was cached, once an EVM token's row is disabled the next look-up finds nothing. */
  lemma DisableThenResolve(s: State, id: string, answer: Option<Entry>, s2: State)
    requires Coherent(s) && UniqueRows(s.rows) && NoEmptyChain(s.rows)
    requires id in s.rows && s.rows[id].chainID.Some? && Normal(s.rows[id].token)
    requires Next(DisabledRow(s, id), Resolve(s.rows[id].token, s.rows[id].chain, s.rows[id].chainID.value, answer), s2)
    ensures answer == None
  {
    var r, s1 := s.rows[id], DisabledRow(s, id);
    DisableKeepsCoherent(s, id);
    LowerNormal(r.token);
    assert KeyCoherent(s1, r.token, r.chain, r.chainID.value);
    if answer.Some? {
      assert Serves(s1.rows, answer.value, r.token, r.chain, r.chainID.value);
      assert ConflictsWith(s.rows[answer.value.id], s.rows[id].token, s.rows[id].chain, s.rows[id].chainID);
    }
  }

  /** The look-up can answer nothing at all. */
  ghost predicate MustMiss(s: State, r: Row) {
    forall answer, s2 :: Next(s, Resolve(r.token, r.chain, Shown(r.chainID), answer), s2) ==> answer == None
  }

  /** Disabling an enabled row hides its token from the next look-up if and only if it was the only match. */
  lemma DisableHidesIff(s: State, id: string)
    requires id in s.rows && s.rows[id].enabled && Lower(s.rows[id].token) == s.rows[id].token
    ensures MustMiss(DisabledRow(s, id), s.rows[id]) <==> OnlyMatch(s.rows, s.rows[id], id)
  {
    var r, s1 := s.rows[id], DisabledRow(s, id);
    if OnlyMatch(s.rows, r, id) {
      forall i | i in s1.rows ensures !Matches(s1.rows[i], r.token, r.chain, Shown(r.chainID)) {
        if i != id { assert s1.rows[i] == s.rows[i]; }
      }
    } else {
      var i :| i in s.rows && Matches(s.rows[i], r.token, r.chain, Shown(r.chainID)) && i != id;
      assert s1.rows[i] == s.rows[i];
      MissAnswersAny(s1, r, i);
    }
  }

  // ---- Look-ups without writes ----

  /** Nobody upserts or disables. */
  predicate Reads(op: Op) {
    (op.Resolve? && Normal(op.token)) || op.List? || op.Evict?
  }

  ghost predicate IsReadRun(s: State, states: seq<State>, ops: seq<Op>) {
    IsRun(states, ops) && states[0] == s && forall op :: op in ops ==> Reads(op)
  }

  lemma {:induction false} ReadRunStays(s: State, states: seq<State>, ops: seq<Op>, i: nat)
    requires Coherent(s) && IsReadRun(s, states, ops) && i <= |ops|
    ensures Coherent(states[i]) && states[i].rows == s.rows
    decreases i
  {
    if i > 0 {
      ReadRunStays(s, states, ops, i - 1);
      assert ops[i - 1] in ops && Reads(ops[i - 1]);
      NextKeepsCoherent(states[i - 1], ops[i - 1], states[i]);
    }
  }

  /** Every look-up answers some enabled match of the table the run began with, and none only if there is none. */
  lemma ReadRunAnswers(s: State, states: seq<State>, ops: seq<Op>, i: nat)
    requires Coherent(s) && IsReadRun(s, states, ops) && i < |ops| && ops[i].Resolve?
    ensures var op := ops[i];
      if op.answer.None? then !Registered(s.rows, op.token, op.chain, op.chainID)
      else Serves(s.rows, op.answer.value, op.token, op.chain, op.chainID)
  {
    ReadRunStays(s, states, ops, i);
    assert ops[i] in ops && Reads(ops[i]) && Next(states[i], ops[i], states[i + 1]);
    LowerNormal(ops[i].token);
    assert KeyCoherent(states[i], ops[i].token, ops[i].chain, ops[i].chainID);
  }

  /** The run's i-th operation is a look-up of this question. */
  ghost predicate Asked(s: State, states: seq<State>, ops: seq<Op>, i: nat, token: string, chain: Chain, chainID: string) {
    && IsReadRun(s, states, ops) && i < |ops|
    && ops[i].Resolve? && ops[i].token == token && ops[i].chain == chain && ops[i].chainID == chainID
  }

  ghost predicate Agree(s: State, token: string, chain: Chain, chainID: string) {
    forall states: seq<State>, ops: seq<Op>, i: nat, j: nat ::
      Asked(s, states, ops, i, token, chain, chainID) && Asked(s, states, ops, j, token, chain, chainID) ==>
        ops[i].answer == ops[j].answer
  }

  predicate SameDecimals(a: Option<Entry>, b: Option<Entry>) {
    a.Some? && b.Some? ==> a.value.decimals == b.value.decimals
  }

  ghost predicate AgreeOnDecimals(s: State, token: string, chain: Chain, chainID: string) {
    forall states: seq<State>, ops: seq<Op>, i: nat, j: nat ::
      Asked(s, states, ops, i, token, chain, chainID) && Asked(s, states, ops, j, token, chain, chainID) ==>
        SameDecimals(ops[i].answer, ops[j].answer)
  }

  ghost predicate OneMatch(t: Table, token: string, chain: Chain, chainID: string) {
    forall i, j :: i in t && j in t && Matches(t[i], token, chain, chainID) && Matches(t[j], token, chain, chainID) ==> i == j
  }

  ghost predicate OneScale(t: Table, token: string, chain: Chain, chainID: string) {
    forall i, j :: i in t && j in t && Matches(t[i], token, chain, chainID) && Matches(t[j], token, chain, chainID) ==>
      t[i].decimals == t[j].decimals
  }

  /** One eviction between two look-ups lets the database pick another match. */
  lemma TwoAnswers(s: State, token: string, chain: Chain, chainID: string, i: string, j: string)
    returns (states: seq<State>, ops: seq<Op>)
    requires Normal(token) && i in s.rows && j in s.rows
    requires Matches(s.rows[i], token, chain, chainID) && Matches(s.rows[j], token, chain, chainID)
    ensures IsReadRun(s, states, ops) && |ops| == 4
    ensures ops[1] == Resolve(token, chain, chainID, Some(EntryOf(i, s.rows[i])))
    ensures ops[3] == Resolve(token, chain, chainID, Some(EntryOf(j, s.rows[j])))
  {
    LowerNormal(token);
    var k := Key(token, chain, chainID);
    var e1, e2 := EntryOf(i, s.rows[i]), EntryOf(j, s.rows[j]);
    ops := [Evict(k), Resolve(token, chain, chainID, Some(e1)), Evict(k), Resolve(token, chain, chainID, Some(e2))];
    var s1 := s.(cache := s.cache - {k});
    var s2 := s1.(cache := s1.cache[k := One(e1)]);
    var s3 := s2.(cache := s2.cache - {k});
    var s4 := s3.(cache := s3.cache[k := One(e2)]);
    states := [s, s1, s2, s3, s4];
    assert Next(s, ops[0], s1) && Next(s1, ops[1], s2) && Next(s2, ops[2], s3) && Next(s3, ops[3], s4);
  }

  /** While nobody upserts or disables, look-ups of one question give one answer, whichever match the database picks and
      whatever the cache drops in between, if and only if at most one enabled row matches. */
  lemma LookupsAgreeIff(s: State, token: string, chain: Chain, chainID: string)
    requires Coherent(s) && Normal(token)
    ensures Agree(s, token, chain, chainID) <==> OneMatch(s.rows, token, chain, chainID)
  {
    if OneMatch(s.rows, token, chain, chainID) {
      forall states: seq<State>, ops: seq<Op>, i: nat, j: nat
        | Asked(s, states, ops, i, token, chain, chainID) && Asked(s, states, ops, j, token, chain, chainID)
        ensures ops[i].answer == ops[j].answer
      {
        ReadRunAnswers(s, states, ops, i);
        ReadRunAnswers(s, states, ops, j);
      }
    } else {
      var i, j :| i in s.rows && j in s.rows && i != j
        && Matches(s.rows[i], token, chain, chainID) && Matches(s.rows[j], token, chain, chainID);
      var states, ops := TwoAnswers(s, token, chain, chainID, i, j);
      assert Asked(s, states, ops, 1, token, chain, chainID) && Asked(s, states, ops, 3, token, chain, chainID);
    }
  }

  /** And they agree on the decimals if and only if all enabled matches have the same. */
  lemma DecimalsAgreeIff(s: State, token: string, chain: Chain, chainID: string)
    requires Coherent(s) && Normal(token)
    ensures AgreeOnDecimals(s, token, chain, chainID) <==> OneScale(s.rows, token, chain, chainID)
  {
    if OneScale(s.rows, token, chain, chainID) {
      forall states: seq<State>, ops: seq<Op>, i: nat, j: nat
        | Asked(s, states, ops, i, token, chain, chainID) && Asked(s, states, ops, j, token, chain, chainID)
        ensures SameDecimals(ops[i].answer, ops[j].answer)
      {
        ReadRunAnswers(s, states, ops, i);
        ReadRunAnswers(s, states, ops, j);
      }
    } else {
      var i, j :| i in s.rows && j in s.rows && s.rows[i].decimals != s.rows[j].decimals
        && Matches(s.rows[i], token, chain, chainID) && Matches(s.rows[j], token, chain, chainID);
      var states, ops := TwoAnswers(s, token, chain, chainID, i, j);
      assert Asked(s, states, ops, 1, token, chain, chainID) && Asked(s, states, ops, 3, token, chain, chainID);
    }
  }

  /** A question with a chain id has one match at most, by the UNIQUE constraint. */
  lemma ChainIDsMatchOnce(t: Table, token: string, chain: Chain, chainID: string)
    requires UniqueRows(t) && chainID != ""
    ensures OneMatch(t, token, chain, chainID)
  {
    forall i, j | i in t && j in t && Matches(t[i], token, chain, chainID) && Matches(t[j], token, chain, chainID) ensures i == j {
      assert ConflictsWith(t[i], t[j].token, t[j].chain, t[j].chainID);
    }
  }

  /** Until somebody writes again, every look-up of a token that was upserted with a chain id answers what was upserted,
      whatever was cached before and however its name was spelled. */
  lemma UpsertedIsAnswered(s: State, op: Op, s1: State, states: seq<State>, ops: seq<Op>, i: nat)
    requires Coherent(s) && UniqueRows(s.rows) && op.Upsert? && Next(s, op, s1) && Amount.TrimSpace(op.rawChainID) != ""
    requires Asked(s1, states, ops, i, Lower(Amount.TrimSpace(op.rawToken)), op.chain, Amount.TrimSpace(op.rawChainID))
    ensures var answer := ops[i].answer;
      && answer.Some? && answer.value.id == op.id
      && answer.value.contract == op.contract && answer.value.decimals == op.decimals && answer.value.symbol == op.symbol
  {
    var token, chainID := Lower(Amount.TrimSpace(op.rawToken)), Amount.TrimSpace(op.rawChainID);
    NextKeepsCoherent(s, op, s1);
    NextKeepsUnique(s, op, s1);
    ReadRunAnswers(s1, states, ops, i);
    ChainIDsMatchOnce(s1.rows, token, op.chain, chainID);
    assert op.id in s1.rows && Matches(s1.rows[op.id], token, op.chain, chainID);
  }

  // ---- Where coherence would fail ----

  /** The delete is what keeps the cache coherent: if it fails, the cached entry survives the upsert, and it is
      stale exactly when the upsert changed what it shows. */
  lemma FailedDeleteIsStaleIff(s: State, op: Op, token: string)
    requires Coherent(s) && op.Upsert? && Next(s, op, State(s.rows[op.id := UpsertRow(op)], Invalidated(s.cache, UpsertRow(op))))
    requires Normal(token) && UpsertRow(op).token == token
    requires var k := Key(token, op.chain, Shown(UpsertRow(op).chainID)); k in s.cache && s.cache[k].One? && s.cache[k].entry.id == op.id
    ensures var r := UpsertRow(op);
      var chainID := Shown(r.chainID);
      var coherent := KeyCoherent(s.(rows := s.rows[op.id := r]), token, op.chain, chainID);
      coherent <==> s.cache[Key(token, op.chain, chainID)].entry == EntryOf(op.id, r)
  {
  }

  lemma OneMoreInfo(t: Table, ids: set<string>, id: string)
    requires id in t
    ensures InfosOf(t, ids + {id}) == InfosOf(t, ids) + {InfoOf(id, t[id])}
  {
  }

  // ---- The registry object ----

  class TokenRegistry {
    var rows: Table
    var cache: map<string, Cached>

    ghost function Current(): State reads this {
      State(rows, cache)
    }

    constructor (rows: Table)
      ensures Current() == State(rows, map[])
    {
      this.rows, cache := rows, map[];
    }

    method GetStablecoinToken(token: string, chain: Chain, chainID: string) returns (e: Option<Entry>)
      ensures e.None? <==> !Registered(rows, Lower(token), chain, chainID)
      ensures e.Some? ==> Serves(rows, e.value, Lower(token), chain, chainID)
    {
      var lowered := Lower(token);
      if exists id :: id in rows && Matches(rows[id], lowered, chain, chainID) {
        var id :| id in rows && Matches(rows[id], lowered, chain, chainID);
        return Some(EntryOf(id, rows[id]));
      }
      return None;
    }

    method ResolveOn(token: string, chain: Chain, chainID: string) returns (answer: Option<Entry>)
      modifies `cache
      ensures Next(old(Current()), Resolve(token, chain, chainID, answer), Current())
    {
      var k := Key(token, chain, chainID);
      if k in cache && cache[k].One? {
        return Some(cache[k].entry);
      }
      answer := GetStablecoinToken(token, chain, chainID);
      if answer.Some? {
        cache := cache[k := One(answer.value)];
      }
    }

    method ResolveEVM(token: string, chainID: string) returns (answer: Option<Entry>)
      modifies `cache
      ensures Next(old(Current()), Resolve(token, Evm, chainID, answer), Current())
    {
      answer := ResolveOn(token, Evm, chainID);
    }

    method ResolveSolana(token: string) returns (answer: Option<Entry>)
      modifies `cache
      ensures Next(old(Current()), Resolve(token, Solana, "", answer), Current())
    {
      answer := ResolveOn(token, Solana, "");
    }

    method ListAll() returns (answer: set<Info>)
      modifies `cache
      ensures Next(old(Current()), List(answer), Current())
    {
      if LIST_KEY in cache && cache[LIST_KEY].All? {
        return cache[LIST_KEY].infos;
      }
      var ids := EnabledIDs(rows);
      answer := {};
      ghost var done := {};
      while ids != {}
        invariant done + ids == EnabledIDs(rows)
        invariant answer == InfosOf(rows, done) && cache == old(cache)
        decreases |ids|
      {
        var id :| id in ids;
        OneMoreInfo(rows, done, id);
        ids, done := ids - {id}, done + {id};
        answer := answer + {InfoOf(id, rows[id])};
      }
      cache := cache[LIST_KEY := All(answer)];
    }

    method UpsertToken(op: Op)
      requires op.Upsert? && Upsertable(rows, UpsertRow(op), op.id)
      modifies this
      ensures Next(old(Current()), op, Current())
    {
      var r := UpsertRow(op);
      rows := rows[op.id := r];
      cache := cache - {Key(r.token, r.chain, Shown(r.chainID)), LIST_KEY};
    }

    method DisableToken(id: string) returns (found: bool)
      modifies this
      ensures Next(old(Current()), Disable(id), Current())
      ensures found == (id in old(rows))
    {
      if id !in rows {
        return false;
      }
      var target := if rows[id].enabled then Some(rows[id]) else None;
      rows := rows[id := rows[id].(enabled := false)];
      if target.Some? {
        cache := cache - {Key(target.value.token, target.value.chain, Shown(target.value.chainID)), LIST_KEY};
      }
      return true;
    }
  }
}
