/** The JSON store: users, agents and conversations as whole collections, the
    four id indexes rebuilt from them, and one append-only message log per
    conversation. Every collection is held in memory; loading a file and saving
    it back becomes reading and reassigning a field. Identifiers, timestamps
    and password hashing come from the caller. */
module Store {
  import opened Wrappers
  import opened Strings

  datatype AgentType = Pessoal | Corporativo

  datatype User = User(
    id: string,
    tenantId: string,
    email: string,
    passwordHash: string,
    role: string,
    createdAt: string,
    updatedAt: Option<string>)

  /** `matrixVersion` is `None` for a record saved without the key; it is read
      as 0. */
  datatype Agent = Agent(
    id: string,
    tenantId: string,
    ownerUserId: string,
    name: string,
    agentType: AgentType,
    specialty: string,
    matrix: string,
    matrixVersion: Option<int>,
    createdAt: string,
    updatedAt: Option<string>)

  datatype Conversation = Conversation(id: string, tenantId: string, userId: string, agentId: string, createdAt: string)

  datatype Message = Message(role: string, content: string, createdAt: string)

  /** One line of a conversation log: a message record, or a whitespace-only
      line, which readers skip. */
  datatype LogLine = Entry(record: Message) | BlankLine

  datatype StoreError = AgentNotFound

  /** `hash_password`, an uninterpreted one-way function. */
  type Hasher = string -> string
  /** `verify_password(password, hash)`. */
  type Verifier = (string, string) -> bool

  // ------------------------------------------------------------------ users

  predicate IsLogin(u: User, tenantId: string, email: string) {
    u.tenantId == tenantId && u.email == email
  }

  /** Python's `next((u for u in users if ...), None)`: the position of the
      first user with this tenant and e-mail. */
  function FindUser(users: seq<User>, tenantId: string, email: string): (r: Option<nat>)
    ensures r.Some? ==>
      && r.value < |users| && IsLogin(users[r.value], tenantId, email)
      && forall j :: 0 <= j < r.value ==> !IsLogin(users[j], tenantId, email)
    ensures r.None? ==> forall j :: 0 <= j < |users| ==> !IsLogin(users[j], tenantId, email)
  {
    if users == [] then None
    else if IsLogin(users[0], tenantId, email) then Some(0)
    else
      match FindUser(users[1..], tenantId, email)
      case None => None
      case Some(i) => Some(i + 1)
  }

  /** The user collection after `upsert_user`: the first matching record gets
      the new hash, role and update time in place; with no match, one new
      record is appended. */
  function Upserted(users: seq<User>, tenantId: string, email: string, passwordHash: string, role: string,
                    newId: string, now: string): seq<User>
  {
    match FindUser(users, tenantId, email)
    case Some(i) => users[i := users[i].(passwordHash := passwordHash, role := role, updatedAt := Some(now))]
    case None => users + [User(newId, tenantId, email, passwordHash, role, now, None)]
  }

  /** No two users share a tenant and an e-mail. */
  predicate UniqueLogins(users: seq<User>) {
    forall i, j :: 0 <= i < j < |users| ==>
      !(users[i].tenantId == users[j].tenantId && users[i].email == users[j].email)
  }

  /** An upsert changes at most the matched record and otherwise appends one;
      the login it was given then finds a record holding the new hash and role,
      with the id and creation time it had before, if it existed. */
  lemma UpsertEffect(users: seq<User>, tenantId: string, email: string, passwordHash: string, role: string,
                     newId: string, now: string)
    ensures var r := Upserted(users, tenantId, email, passwordHash, role, newId, now);
      match FindUser(users, tenantId, email)
      case Some(i) =>
        && |r| == |users|
        && (forall j :: 0 <= j < |users| && j != i ==> r[j] == users[j])
        && FindUser(r, tenantId, email) == Some(i)
        && r[i].passwordHash == passwordHash && r[i].role == role
        && r[i].id == users[i].id && r[i].createdAt == users[i].createdAt
      case None =>
        && r[..|users|] == users && |r| == |users| + 1
        && FindUser(r, tenantId, email) == Some(|users|)
        && r[|users|] == User(newId, tenantId, email, passwordHash, role, now, None)
  {
    var r := Upserted(users, tenantId, email, passwordHash, role, newId, now);
    match FindUser(users, tenantId, email)
    case Some(i) =>
      assert IsLogin(r[i], tenantId, email);
      assert forall j :: 0 <= j < i ==> r[j] == users[j];
    case None =>
      assert r[..|users|] == users;
      assert forall j :: 0 <= j < |users| ==> r[j] == users[j];
      assert IsLogin(r[|users|], tenantId, email);
  }

  /** Upserting never creates a second record for a login. */
  lemma UpsertKeepsLoginsUnique(users: seq<User>, tenantId: string, email: string, passwordHash: string,
                                role: string, newId: string, now: string)
    requires UniqueLogins(users)
    ensures UniqueLogins(Upserted(users, tenantId, email, passwordHash, role, newId, now))
  {
    var r := Upserted(users, tenantId, email, passwordHash, role, newId, now);
    match FindUser(users, tenantId, email)
    case Some(i) =>
      forall a, b | 0 <= a < b < |r|
        ensures !(r[a].tenantId == r[b].tenantId && r[a].email == r[b].email)
      {
        assert r[a].tenantId == users[a].tenantId && r[a].email == users[a].email;
        assert r[b].tenantId == users[b].tenantId && r[b].email == users[b].email;
      }
    case None =>
      forall a, b | 0 <= a < b < |r|
        ensures !(r[a].tenantId == r[b].tenantId && r[a].email == r[b].email)
      {
        if b == |users| {
          assert !IsLogin(users[a], tenantId, email);
        }
      }
  }

  // ----------------------------------------------------------------- agents

  predicate IsAgent(a: Agent, tenantId: string, agentId: string) {
    a.tenantId == tenantId && a.id == agentId
  }

  /** The position of the first agent with this tenant and id. */
  function FindAgent(agents: seq<Agent>, tenantId: string, agentId: string): (r: Option<nat>)
    ensures r.Some? ==>
      && r.value < |agents| && IsAgent(agents[r.value], tenantId, agentId)
      && forall j :: 0 <= j < r.value ==> !IsAgent(agents[j], tenantId, agentId)
    ensures r.None? ==> forall j :: 0 <= j < |agents| ==> !IsAgent(agents[j], tenantId, agentId)
  {
    if agents == [] then None
    else if IsAgent(agents[0], tenantId, agentId) then Some(0)
    else
      match FindAgent(agents[1..], tenantId, agentId)
      case None => None
      case Some(i) => Some(i + 1)
  }

  /** The record after a new matrix is stored: the matrix replaced, the version
      one more than before (a missing version counting as 0), the update time
      set; nothing else changes. */
  function WithMatrix(a: Agent, matrix: string, now: string): (r: Agent)
    ensures r.matrix == matrix && r.matrixVersion == Some(a.matrixVersion.GetOr(0) + 1)
    ensures r.updatedAt == Some(now)
    ensures r.(matrix := a.matrix, matrixVersion := a.matrixVersion, updatedAt := a.updatedAt) == a
  {
    a.(matrix := matrix, matrixVersion := Some(a.matrixVersion.GetOr(0) + 1), updatedAt := Some(now))
  }

  /** Successive updates of one record: the version counts them, and the last
      matrix wins. */
  function UpdateMany(a: Agent, matrices: seq<string>, now: string): Agent
    decreases |matrices|
  {
    if matrices == [] then a
    else UpdateMany(WithMatrix(a, matrices[0], now), matrices[1..], now)
  }

  lemma {:induction false} VersionCountsUpdates(a: Agent, matrices: seq<string>, now: string)
    ensures UpdateMany(a, matrices, now).matrixVersion.GetOr(0) == a.matrixVersion.GetOr(0) + |matrices|
    ensures matrices != [] ==> UpdateMany(a, matrices, now).matrix == matrices[|matrices| - 1]
    ensures UpdateMany(a, matrices, now).id == a.id && UpdateMany(a, matrices, now).tenantId == a.tenantId
    decreases |matrices|
  {
    if matrices != [] {
      VersionCountsUpdates(WithMatrix(a, matrices[0], now), matrices[1..], now);
      if |matrices| > 1 {
        assert matrices[1..][|matrices[1..]| - 1] == matrices[|matrices| - 1];
      }
    }
  }

  /** The agents collection after one `update_agent_matrix` call. */
  function AfterUpdate(agents: seq<Agent>, tenantId: string, agentId: string, matrix: string, now: string): seq<Agent> {
    match FindAgent(agents, tenantId, agentId)
    case None => agents
    case Some(i) => agents[i := WithMatrix(agents[i], matrix, now)]
  }

  /** An update keeps the tenant and id of the record it changes, so the next
      lookup lands on the same record. */
  lemma StillFound(agents: seq<Agent>, tenantId: string, agentId: string, matrix: string, now: string)
    requires FindAgent(agents, tenantId, agentId).Some?
    ensures FindAgent(AfterUpdate(agents, tenantId, agentId, matrix, now), tenantId, agentId) == FindAgent(agents, tenantId, agentId)
  {
    var i := FindAgent(agents, tenantId, agentId).value;
    var after := AfterUpdate(agents, tenantId, agentId, matrix, now);
    assert IsAgent(after[i], tenantId, agentId);
    assert forall j :: 0 <= j < i ==> after[j] == agents[j];
    FindAgentFirst(after, tenantId, agentId, i);
  }

  /** A matching index with no match before it is what `FindAgent` finds. */
  lemma FindAgentFirst(agents: seq<Agent>, tenantId: string, agentId: string, i: nat)
    requires i < |agents| && IsAgent(agents[i], tenantId, agentId)
    requires forall j :: 0 <= j < i ==> !IsAgent(agents[j], tenantId, agentId)
    ensures FindAgent(agents, tenantId, agentId) == Some(i)
  {
  }

  /** Successive `update_agent_matrix` calls on one agent. */
  function UpdatesApplied(agents: seq<Agent>, tenantId: string, agentId: string, matrices: seq<string>, now: string): seq<Agent>
    decreases |matrices|
  {
    if matrices == [] then agents
    else UpdatesApplied(AfterUpdate(agents, tenantId, agentId, matrices[0], now), tenantId, agentId, matrices[1..], now)
  }

  /** In the store, n updates of one agent change only its record, which
      becomes the n-fold update of the original: its version has grown by n
      (0, 1, 2, ... over successive ingests) and its matrix is the last one. */
  lemma {:induction false} UpdatesAccumulate(agents: seq<Agent>, tenantId: string, agentId: string, matrices: seq<string>, now: string)
    requires FindAgent(agents, tenantId, agentId).Some?
    ensures var i := FindAgent(agents, tenantId, agentId).value;
      var after := UpdatesApplied(agents, tenantId, agentId, matrices, now);
      && |after| == |agents| && after[i] == UpdateMany(agents[i], matrices, now)
      && (forall j :: 0 <= j < |agents| && j != i ==> after[j] == agents[j])
      && after[i].matrixVersion.GetOr(0) == agents[i].matrixVersion.GetOr(0) + |matrices|
    decreases |matrices|
  {
    var i := FindAgent(agents, tenantId, agentId).value;
    if matrices != [] {
      var next := AfterUpdate(agents, tenantId, agentId, matrices[0], now);
      StillFound(agents, tenantId, agentId, matrices[0], now);
      UpdatesAccumulate(next, tenantId, agentId, matrices[1..], now);
    }
    VersionCountsUpdates(agents[i], matrices, now);
  }

  /** The agents of one tenant, in collection order. */
  function TenantAgents(agents: seq<Agent>, tenantId: string): (r: seq<Agent>)
    ensures forall a :: a in r <==> a in agents && a.tenantId == tenantId
  {
    if agents == [] then []
    else
      var last := agents[|agents| - 1];
      TenantAgents(agents[..|agents| - 1], tenantId) + (if last.tenantId == tenantId then [last] else [])
  }

  /** The agents of one tenant owned by one user, in collection order. */
  function OwnedAgents(agents: seq<Agent>, tenantId: string, userId: string): (r: seq<Agent>)
    ensures forall a :: a in r <==> a in agents && a.tenantId == tenantId && a.ownerUserId == userId
  {
    if agents == [] then []
    else
      var last := agents[|agents| - 1];
      OwnedAgents(agents[..|agents| - 1], tenantId, userId)
        + (if last.tenantId == tenantId && last.ownerUserId == userId then [last] else [])
  }

  /** What a non-admin sees is what an admin of the tenant sees, narrowed to
      the user's own agents, in the same order. */
  lemma {:induction false} OwnedWithinTenant(agents: seq<Agent>, tenantId: string, userId: string)
    ensures OwnedAgents(agents, tenantId, userId) == OwnedAgents(TenantAgents(agents, tenantId), tenantId, userId)
  {
    if agents != [] {
      var init := agents[..|agents| - 1];
      var last := agents[|agents| - 1];
      OwnedWithinTenant(init, tenantId, userId);
      OwnedAppend(TenantAgents(init, tenantId), if last.tenantId == tenantId then [last] else [], tenantId, userId);
      if last.tenantId == tenantId {
        assert OwnedAgents([last], tenantId, userId) == if last.ownerUserId == userId then [last] else [];
      }
    }
  }

  /** Filtering by tenant keeps collection order: the agents of a prefix come
      before those of what follows it. */
  lemma {:induction false} TenantAppend(a: seq<Agent>, b: seq<Agent>, tenantId: string)
    ensures TenantAgents(a + b, tenantId) == TenantAgents(a, tenantId) + TenantAgents(b, tenantId)
  {
    if b == [] {
      assert a + b == a;
    } else {
      assert (a + b)[..|a + b| - 1] == a + b[..|b| - 1];
      TenantAppend(a, b[..|b| - 1], tenantId);
    }
  }

  /** The same for the agents a user owns. */
  lemma {:induction false} OwnedAppend(a: seq<Agent>, b: seq<Agent>, tenantId: string, userId: string)
    ensures OwnedAgents(a + b, tenantId, userId) == OwnedAgents(a, tenantId, userId) + OwnedAgents(b, tenantId, userId)
  {
    if b == [] {
      assert a + b == a;
    } else {
      assert (a + b)[..|a + b| - 1] == a + b[..|b| - 1];
      OwnedAppend(a, b[..|b| - 1], tenantId, userId);
    }
  }

  // ------------------------------------------------------------------ index

  /** The ids listed under `key`, in collection order, for (key, id) pairs. */
  function Listed(entries: seq<(string, string)>, key: string): seq<string>
  {
    if entries == [] then []
    else
      var last := entries[|entries| - 1];
      Listed(entries[..|entries| - 1], key) + (if last.0 == key then [last.1] else [])
  }

  /** The positions of the pairs listed under `key`, in increasing order. */
  function ListedAt(entries: seq<(string, string)>, key: string): (r: seq<nat>)
    ensures |r| == |Listed(entries, key)|
    ensures forall i :: 0 <= i < |r| ==> r[i] < |entries| && Listed(entries, key)[i] == entries[r[i]].1
  {
    if entries == [] then []
    else
      var init := entries[..|entries| - 1];
      var last := entries[|entries| - 1];
      ListedAt(init, key) + (if last.0 == key then [|entries| - 1] else [])
  }

  /** The index is a partition of the collection: every pair is listed under
      its own key, exactly once, and under no other key, and each list keeps
      collection order. */
  lemma {:induction false} ListedExactlyOnce(entries: seq<(string, string)>, key: string)
    ensures forall i, j :: 0 <= i < j < |ListedAt(entries, key)| ==> ListedAt(entries, key)[i] < ListedAt(entries, key)[j]
    ensures forall p :: p in ListedAt(entries, key) <==> 0 <= p < |entries| && entries[p].0 == key
  {
    ListedIncreasing(entries, key);
    ListedMembers(entries, key);
  }

  lemma {:induction false} ListedIncreasing(entries: seq<(string, string)>, key: string)
    ensures forall i, j :: 0 <= i < j < |ListedAt(entries, key)| ==> ListedAt(entries, key)[i] < ListedAt(entries, key)[j]
  {
    if entries != [] {
      var n := |entries| - 1;
      ListedIncreasing(entries[..n], key);
      var prev := ListedAt(entries[..n], key);
      var tail: seq<nat> := if entries[n].0 == key then [n] else [];
      assert ListedAt(entries, key) == prev + tail;
      forall i, j | 0 <= i < j < |prev + tail| ensures (prev + tail)[i] < (prev + tail)[j] {
        assert (prev + tail)[i] == prev[i];
        if j >= |prev| {
          assert (prev + tail)[j] == n;
        }
      }
    }
  }

  lemma {:induction false} ListedMembers(entries: seq<(string, string)>, key: string)
    ensures forall p :: p in ListedAt(entries, key) <==> 0 <= p < |entries| && entries[p].0 == key
  {
    if entries != [] {
      var n := |entries| - 1;
      var init := entries[..n];
      ListedMembers(init, key);
      var prev := ListedAt(init, key);
      var tail: seq<nat> := if entries[n].0 == key then [n] else [];
      assert ListedAt(entries, key) == prev + tail;
      forall p ensures p in prev + tail <==> 0 <= p < |entries| && entries[p].0 == key {
        if 0 <= p < n {
          assert init[p] == entries[p];
        }
      }
    }
  }

  /** `setdefault(key, []).append(id)` over the whole collection. */
  function Index(entries: seq<(string, string)>): map<string, seq<string>>
  {
    if entries == [] then map[]
    else
      var prev := Index(entries[..|entries| - 1]);
      var last := entries[|entries| - 1];
      prev[last.0 := (if last.0 in prev then prev[last.0] else []) + [last.1]]
  }

  /** Some pair of the collection has `key` as its key. */
  predicate Occurs(entries: seq<(string, string)>, key: string) {
    exists j :: 0 <= j < |entries| && entries[j].0 == key
  }

  /** A key occurs in a collection exactly when it occurs before the last
      pair or is the last pair's key. */
  lemma OccursSnoc(entries: seq<(string, string)>, key: string)
    requires entries != []
    ensures Occurs(entries, key) <==> Occurs(entries[..|entries| - 1], key) || entries[|entries| - 1].0 == key
  {
    var init := entries[..|entries| - 1];
    if j :| 0 <= j < |entries| && entries[j].0 == key {
      if j < |init| {
        assert init[j] == entries[j];
      }
    }
    if j :| 0 <= j < |init| && init[j].0 == key {
      assert init[j] == entries[j];
    }
  }

  /** The index has a key exactly for the keys that occur. */
  lemma {:induction false} IndexKeys(entries: seq<(string, string)>)
    ensures forall k :: k in Index(entries) <==> Occurs(entries, k)
  {
    if entries != [] {
      IndexKeys(entries[..|entries| - 1]);
      forall k ensures k in Index(entries) <==> Occurs(entries, k) {
        OccursSnoc(entries, k);
      }
    }
  }

  /** Under each key the index lists what `Listed` lists (a key that is
      absent lists nothing). */
  lemma {:induction false} IndexLists(entries: seq<(string, string)>)
    ensures forall k :: (if k in Index(entries) then Index(entries)[k] else []) == Listed(entries, k)
  {
    if entries != [] {
      var init := entries[..|entries| - 1];
      IndexLists(init);
      forall k ensures (if k in Index(entries) then Index(entries)[k] else []) == Listed(entries, k) {
        assert (if k in Index(init) then Index(init)[k] else []) == Listed(init, k);
      }
    }
  }

  function AgentsByTenant(agents: seq<Agent>): (r: seq<(string, string)>)
    ensures |r| == |agents| && forall i :: 0 <= i < |agents| ==> r[i] == (agents[i].tenantId, agents[i].id)
  {
    seq(|agents|, i requires 0 <= i < |agents| => (agents[i].tenantId, agents[i].id))
  }

  function AgentsByOwner(agents: seq<Agent>): (r: seq<(string, string)>)
    ensures |r| == |agents| && forall i :: 0 <= i < |agents| ==> r[i] == (agents[i].ownerUserId, agents[i].id)
  {
    seq(|agents|, i requires 0 <= i < |agents| => (agents[i].ownerUserId, agents[i].id))
  }

  function ConversationsByAgent(convs: seq<Conversation>): (r: seq<(string, string)>)
    ensures |r| == |convs| && forall i :: 0 <= i < |convs| ==> r[i] == (convs[i].agentId, convs[i].id)
  {
    seq(|convs|, i requires 0 <= i < |convs| => (convs[i].agentId, convs[i].id))
  }

  function ConversationsByUser(convs: seq<Conversation>): (r: seq<(string, string)>)
    ensures |r| == |convs| && forall i :: 0 <= i < |convs| ==> r[i] == (convs[i].userId, convs[i].id)
  {
    seq(|convs|, i requires 0 <= i < |convs| => (convs[i].userId, convs[i].id))
  }

  /** Adding one pair to an index. */
  lemma IndexStep(entries: seq<(string, string)>, i: nat)
    requires i < |entries|
    ensures var prev := Index(entries[..i]);
      Index(entries[..i + 1]) == prev[entries[i].0 := (if entries[i].0 in prev then prev[entries[i].0] else []) + [entries[i].1]]
  {
    assert entries[..i + 1][..i] == entries[..i];
  }

  // ---------------------------------------------------------------- logs

  /** The records among log lines, skipping blank lines, in order. */
  function Records(lines: seq<LogLine>): (r: seq<Message>)
    ensures |r| <= |lines|
    ensures forall m :: m in r <==> Entry(m) in lines
  {
    if lines == [] then []
    else
      var last := lines[|lines| - 1];
      assert forall x :: x in lines <==> x in lines[..|lines| - 1] || x == last;
      Records(lines[..|lines| - 1]) + (if last.Entry? then [last.record] else [])
  }

  /** Reading back right after an append: the new message comes last, after
      the records of the `limit - 1` lines before it; a limit of 0 reads the
      whole log and a limit of 1 only the new message. */
  lemma AppendThenLoad(log: seq<LogLine>, m: Message, limit: nat)
    ensures limit == 0 ==> Records(PyTail(log + [Entry(m)], limit)) == Records(log) + [m]
    ensures limit == 1 ==> Records(PyTail(log + [Entry(m)], limit)) == [m]
    ensures limit > 1 ==> Records(PyTail(log + [Entry(m)], limit)) == Records(PyTail(log, limit - 1)) + [m]
  {
    var l := log + [Entry(m)];
    var t := PyTail(l, limit);
    assert l[..|log|] == log;
    if limit == 1 {
      assert t == [Entry(m)];
      assert t[..0] == [];
    } else if limit > 1 {
      var u := PyTail(log, limit - 1);
      assert t == u + [Entry(m)];
      assert t[..|t| - 1] == u;
    }
  }

  // ------------------------------------------------------------------ class

  class JsonStore {
    var users: seq<User>
    var agents: seq<Agent>
    var conversations: seq<Conversation>
    var agentsByTenant: map<string, seq<string>>
    var agentsByUser: map<string, seq<string>>
    var conversationsByAgent: map<string, seq<string>>
    var conversationsByUser: map<string, seq<string>>
    var logs: map<string, seq<LogLine>>

    /** A store over an empty data directory. */
    constructor ()
      ensures users == [] && agents == [] && conversations == []
      ensures agentsByTenant == map[] && agentsByUser == map[]
      ensures conversationsByAgent == map[] && conversationsByUser == map[]
      ensures logs == map[]
    {
      users := [];
      agents := [];
      conversations := [];
      agentsByTenant := map[];
      agentsByUser := map[];
      conversationsByAgent := map[];
      conversationsByUser := map[];
      logs := map[];
    }

    /** `upsert_user`: update the login's record in place, or append one. */
    method UpsertUser(tenantId: string, email: string, password: string, role: string,
                      hash: Hasher, newId: string, now: string) returns (user: User)
      modifies this`users
      ensures users == Upserted(old(users), tenantId, email, hash(password), role, newId, now)
      ensures FindUser(users, tenantId, email).Some? && user == users[FindUser(users, tenantId, email).value]
    {
      UpsertEffect(users, tenantId, email, hash(password), role, newId, now);
      var found := FindUser(users, tenantId, email);
      match found {
        case Some(i) =>
          user := users[i].(passwordHash := hash(password), role := role, updatedAt := Some(now));
          users := users[i := user];
        case None =>
          user := User(newId, tenantId, email, hash(password), role, now, None);
          users := users + [user];
      }
    }

    /** `authenticate`: the first record of the login, provided the password
      verifies against its hash; otherwise nothing. */
    function Authenticate(tenantId: string, email: string, password: string, verify: Verifier): (r: Option<User>)
      reads this
      ensures r.Some? <==>
        FindUser(users, tenantId, email).Some? && verify(password, users[FindUser(users, tenantId, email).value].passwordHash)
      ensures r.Some? ==> verify(password, r.value.passwordHash)
      ensures r.Some? ==> exists i :: && 0 <= i < |users| && r.value == users[i] && IsLogin(users[i], tenantId, email)
                                      && forall j :: 0 <= j < i ==> !IsLogin(users[j], tenantId, email)
    {
      match FindUser(users, tenantId, email)
      case None => None
      case Some(i) => if verify(password, users[i].passwordHash) then Some(users[i]) else None
    }

    /** `list_agents`: an admin sees every agent of the tenant, anyone else
      only the ones they own; no agent of another tenant ever. */
    function ListAgents(tenantId: string, userId: string, role: string): (r: seq<Agent>)
      reads this
      ensures forall a :: a in r ==> a in agents && a.tenantId == tenantId
      ensures role == "admin" ==> forall a :: a in agents && a.tenantId == tenantId ==> a in r
      ensures role != "admin" ==> forall a :: a in r <==> a in agents && a.tenantId == tenantId && a.ownerUserId == userId
    {
      if role == "admin" then TenantAgents(agents, tenantId) else OwnedAgents(agents, tenantId, userId)
    }

    /** `create_agent`: append one fresh agent, then rebuild the agent
      indexes. */
    method CreateAgent(tenantId: string, ownerUserId: string, name: string, agentType: AgentType,
                       specialty: string, newId: string, now: string) returns (agent: Agent)
      modifies this`agents, this`agentsByTenant, this`agentsByUser
      ensures agent == Agent(newId, tenantId, ownerUserId, name, agentType, specialty, "", Some(0), now, None)
      ensures agents == old(agents) + [agent]
      ensures agentsByTenant == Index(AgentsByTenant(agents)) && agentsByUser == Index(AgentsByOwner(agents))
    {
      agent := Agent(newId, tenantId, ownerUserId, name, agentType, specialty, "", Some(0), now, None);
      agents := agents + [agent];
      ReindexAgents();
    }

    /** `get_agent`: the first agent with this tenant and id. */
    function GetAgent(tenantId: string, agentId: string): (r: Option<Agent>)
      reads this
      ensures r.Some? <==> exists j :: 0 <= j < |agents| && IsAgent(agents[j], tenantId, agentId)
      ensures r.Some? ==> r.value == agents[FindAgent(agents, tenantId, agentId).value]
    {
      match FindAgent(agents, tenantId, agentId)
      case None => None
      case Some(i) => Some(agents[i])
    }

    /** `update_agent_matrix`: an unknown agent is an error and nothing is
      saved; otherwise only the first matching record changes. */
    method UpdateAgentMatrix(tenantId: string, agentId: string, matrix: string, now: string)
      returns (r: Result<Agent, StoreError>)
      modifies this`agents
      ensures FindAgent(old(agents), tenantId, agentId).None? ==> r == Err(AgentNotFound) && agents == old(agents)
      ensures FindAgent(old(agents), tenantId, agentId).Some? ==>
        var i := FindAgent(old(agents), tenantId, agentId).value;
        && agents == old(agents)[i := WithMatrix(old(agents)[i], matrix, now)]
        && r == Ok(agents[i])
      ensures agents == AfterUpdate(old(agents), tenantId, agentId, matrix, now)
    {
      var found := FindAgent(agents, tenantId, agentId);
      if found.None? {
        return Err(AgentNotFound);
      }
      var i := found.value;
      var agent := agents[i];
      agent := agent.(matrix := matrix);
      agent := agent.(matrixVersion := Some(agent.matrixVersion.GetOr(0) + 1));
      agent := agent.(updatedAt := Some(now));
      agents := agents[i := agent];
      r := Ok(agent);
    }

    /** `_reindex_agents`: one pass over the agents, appending each id under
      its tenant and under its owner. */
    method ReindexAgents()
      modifies this`agentsByTenant, this`agentsByUser
      ensures agentsByTenant == Index(AgentsByTenant(agents)) && agentsByUser == Index(AgentsByOwner(agents))
    {
      var byTenant: map<string, seq<string>> := map[];
      var byUser: map<string, seq<string>> := map[];
      ghost var tenantPairs := AgentsByTenant(agents);
      ghost var ownerPairs := AgentsByOwner(agents);
      var i := 0;
      while i < |agents|
        invariant 0 <= i <= |agents|
        invariant byTenant == Index(tenantPairs[..i]) && byUser == Index(ownerPairs[..i])
      {
        var a := agents[i];
        IndexStep(tenantPairs, i);
        IndexStep(ownerPairs, i);
        byTenant := byTenant[a.tenantId := (if a.tenantId in byTenant then byTenant[a.tenantId] else []) + [a.id]];
        byUser := byUser[a.ownerUserId := (if a.ownerUserId in byUser then byUser[a.ownerUserId] else []) + [a.id]];
        i := i + 1;
      }
      assert tenantPairs[..i] == tenantPairs && ownerPairs[..i] == ownerPairs;
      agentsByTenant := byTenant;
      agentsByUser := byUser;
    }

    /** `create_conversation`: append one conversation, then rebuild the
      conversation indexes. */
    method CreateConversation(tenantId: string, userId: string, agentId: string, newId: string, now: string)
      returns (conv: Conversation)
      modifies this`conversations, this`conversationsByAgent, this`conversationsByUser
      ensures conv == Conversation(newId, tenantId, userId, agentId, now)
      ensures conversations == old(conversations) + [conv]
      ensures conversationsByAgent == Index(ConversationsByAgent(conversations))
      ensures conversationsByUser == Index(ConversationsByUser(conversations))
    {
      conv := Conversation(newId, tenantId, userId, agentId, now);
      conversations := conversations + [conv];
      ReindexConversations();
    }

    /** `_reindex_conversations`: one pass, each id under its agent and its
      user. */
    method ReindexConversations()
      modifies this`conversationsByAgent, this`conversationsByUser
      ensures conversationsByAgent == Index(ConversationsByAgent(conversations))
      ensures conversationsByUser == Index(ConversationsByUser(conversations))
    {
      var byAgent: map<string, seq<string>> := map[];
      var byUser: map<string, seq<string>> := map[];
      ghost var agentPairs := ConversationsByAgent(conversations);
      ghost var userPairs := ConversationsByUser(conversations);
      var i := 0;
      while i < |conversations|
        invariant 0 <= i <= |conversations|
        invariant byAgent == Index(agentPairs[..i]) && byUser == Index(userPairs[..i])
      {
        var c := conversations[i];
        IndexStep(agentPairs, i);
        IndexStep(userPairs, i);
        byAgent := byAgent[c.agentId := (if c.agentId in byAgent then byAgent[c.agentId] else []) + [c.id]];
        byUser := byUser[c.userId := (if c.userId in byUser then byUser[c.userId] else []) + [c.id]];
        i := i + 1;
      }
      assert agentPairs[..i] == agentPairs && userPairs[..i] == userPairs;
      conversationsByAgent := byAgent;
      conversationsByUser := byUser;
    }

    /** `append_message`: one record at the end of the conversation's log,
      which is created empty when missing. */
    method AppendMessage(conversationId: string, role: string, content: string, now: string)
      modifies this`logs
      ensures logs == old(logs)[conversationId :=
        (if conversationId in old(logs) then old(logs)[conversationId] else []) + [Entry(Message(role, content, now))]]
    {
      var log := if conversationId in logs then logs[conversationId] else [];
      logs := logs[conversationId := log + [Entry(Message(role, content, now))]];
    }

    /** `load_last_messages`: nothing for a missing log; otherwise the records
      among its last `limit` lines, in order (all lines when `limit` is 0). */
    function LoadLastMessages(conversationId: string, limit: nat): (r: seq<Message>)
      reads this
      ensures conversationId !in logs ==> r == []
      ensures limit > 0 ==> |r| <= limit
      ensures conversationId in logs ==> forall m :: m in r ==> Entry(m) in logs[conversationId]
      ensures conversationId in logs && limit == 0 ==> r == Records(logs[conversationId])
    {
      if conversationId !in logs then [] else Records(PyTail(logs[conversationId], limit))
    }
  }
}
