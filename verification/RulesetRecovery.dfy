/** Account deletion and the recovery pass over all users' directories
    (`_delete_user_with_rulesets`, `_retry_ruleset_tombstones`, `_ruleset_db_instance_matches`, src/ruleset_store.py). */
module RulesetRecovery {
  import opened Options
  import opened RulesetState
  import RulesetProtocol

  type UserId = nat
  type Markers = map<FileName, Marker>

  datatype Tombstone = Tombstone(user: UserId, nonce: nat)

  /** The durable state: the user table, users/, .pending/, .trash/ and the instance marker. */
  datatype Tree = Tree(users: map<UserId, Account>, usersDir: bool, spaces: map<UserId, Space>,
                       pending: map<UserId, Markers>, trash: map<Tombstone, Space>, owner: Option<string>)
  {
    ghost predicate Valid() { spaces != map[] ==> usersDir }
  }

  /** Nothing is left of the user: no directory, no reservations, no tombstone. */
  ghost predicate NoTrace(t: Tree, u: UserId) {
    u !in t.spaces && u !in t.pending && forall k :: k in t.trash ==> k.user != u
  }

  /** Everything the tree holds for v is the same. */
  ghost predicate SameUser(s: Tree, t: Tree, v: UserId) {
    && (v in s.users <==> v in t.users) && (v in s.users ==> t.users[v] == s.users[v])
    && (v in s.spaces <==> v in t.spaces) && (v in s.spaces ==> t.spaces[v] == s.spaces[v])
    && (v in s.pending <==> v in t.pending) && (v in s.pending ==> t.pending[v] == s.pending[v])
    && forall k: Tombstone :: k.user == v ==> (k in s.trash <==> k in t.trash) && (k in s.trash ==> t.trash[k] == s.trash[k])
  }

  /** What one pass of tombstones does: tombstones of missing users go; a tombstone of an existing user without a directory
      is restored, the first one found; the others stay. */
  ghost predicate TombstonesDone(s: Tree, t: Tree) {
    && t.users == s.users && t.pending == s.pending && t.owner == s.owner && t.Valid()
    && (s.usersDir ==> t.usersDir) && (t.usersDir ==> s.usersDir || exists k :: k in s.trash && k.user in s.users)
    && (forall k :: k in t.trash ==> k in s.trash && t.trash[k] == s.trash[k] && k.user in s.users && k.user in t.spaces)
    && (forall u :: u in s.spaces ==> u in t.spaces && t.spaces[u] == s.spaces[u])
    && (forall u :: u in t.spaces && u !in s.spaces ==> u in s.users && RestoredFrom(s, t, u))
    && (forall k :: k in s.trash && k !in t.trash && k.user in s.users ==>
          k.user !in s.spaces && k.user in t.spaces && t.spaces[k.user] == s.trash[k])
  }

  ghost predicate RestoredFrom(s: Tree, t: Tree, u: UserId)
    requires u in t.spaces
  {
    exists k :: k in s.trash && k !in t.trash && k.user == u && t.spaces[u] == s.trash[k]
      && forall j :: j in s.trash && j.user == u && j != k ==> j in t.trash
  }

  class Service {
    const db: string
    var users: map<UserId, Account>
    var usersDir: bool
    var spaces: map<UserId, Space>
    var pending: map<UserId, Markers>
    var trash: map<Tombstone, Space>
    var owner: Option<string>

    ghost function View(): Tree
      reads this
    {
      Tree(users, usersDir, spaces, pending, trash, owner)
    }

    /** The part of the pass that goes through .trash/. */
    method RetryTombstones() returns (left: set<Tombstone>)
      requires View().Valid()
      modifies this`usersDir, this`spaces, this`trash
      ensures TombstonesDone(old(View()), View())
      ensures left == trash.Keys
    {
      hide Passing, TombstonesDone;
      ghost var s := View();
      PassStart(s);
      left := {};
      var listing := trash.Keys;
      while listing != {}
        invariant listing <= trash.Keys && Passing(s, View(), listing, left)
        decreases |listing|
      {
        var k :| k in listing;
        ghost var before := View();
        if k.user in users {
          if k.user in spaces {
            PassLeave(s, before, listing, left, k);
            left := left + {k};
          } else {
            usersDir := true;
            spaces := spaces[k.user := trash[k]];
            trash := trash - {k};
            PassRestore(s, before, listing, left, k);
          }
        } else {
          trash := trash - {k};
          PassBurn(s, before, listing, left, k);
        }
        listing := listing - {k};
      }
      PassEnd(s, View(), left);
    }

    /** `_ruleset_db_instance_matches`: a missing marker is written, but the tree counts as foreign this time. */
    method InstanceMatches() returns (matches: bool)
      modifies this`owner
      ensures matches == (old(owner) == Some(db))
      ensures owner == if old(owner).None? then Some(db) else old(owner)
    {
      if owner.None? {
        owner := Some(db);
        return false;
      }
      matches := owner.value == db;
    }

    /** Directories of missing users are moved to .trash/ and removed from there. */
    method PurgeOrphans(nonce: nat)
      requires forall k :: k in trash ==> k.nonce != nonce
      modifies this`spaces, this`trash
      ensures spaces == Existing(old(spaces), users) && trash == old(trash)
    {
      var listing := spaces.Keys;
      while listing != {}
        invariant trash == old(trash) && listing <= spaces.Keys
        invariant forall u :: u in spaces ==> u in old(spaces) && spaces[u] == old(spaces)[u]
        invariant forall u :: u in old(spaces) && u !in spaces ==> u !in users
        invariant forall u :: u in spaces && u !in listing ==> u in users
        decreases |listing|
      {
        var u :| u in listing;
        if u !in users {
          var tombstone := Tombstone(u, nonce);
          trash := trash[tombstone := spaces[u]];
          spaces := spaces - {u};
          trash := trash - {tombstone};
        }
        listing := listing - {u};
      }
    }

    method PurgeReservations()
      modifies this`pending
      ensures pending == Existing(old(pending), users)
    {
      var listing := pending.Keys;
      while listing != {}
        invariant listing <= pending.Keys
        invariant forall u :: u in pending ==> u in old(pending) && pending[u] == old(pending)[u]
        invariant forall u :: u in old(pending) && u !in pending ==> u !in users
        invariant forall u :: u in pending && u !in listing ==> u in users
        decreases |listing|
      {
        var u :| u in listing;
        if u !in users { pending := pending - {u}; }
        listing := listing - {u};
      }
    }

    /** `_retry_ruleset_tombstones` without failures; m is the tree after the tombstones. */
    method Recover(nonce: nat) returns (left: set<Tombstone>, ghost m: Tree)
      requires View().Valid() && forall k :: k in trash ==> k.nonce != nonce
      modifies this`usersDir, this`spaces, this`pending, this`trash, this`owner
      ensures Recovered(old(View()), m, View(), db)
      ensures left == if users == map[] then {} else trash.Keys
    {
      hide TombstonesDone;
      left, m := {}, View();
      if users == map[] { return; }
      ghost var s := View();
      left := RetryTombstones();
      m := View();
      FreshNonce(s, m, nonce);
      if usersDir {
        var matches := InstanceMatches();
        if !matches { return; }
        PurgeOrphans(nonce);
      } else {
        NoSpaces(s, m);
      }
      PurgeReservations();
    }

    /** `_delete_user_with_rulesets`: the row first, then the files; `stages` are the trees a crash can leave. */
    method DeleteUser(u: UserId, nonce: nat) returns (r: DeleteOutcome, ghost stages: seq<Tree>)
      requires View().Valid() && forall k :: k in trash ==> k.nonce != nonce
      modifies this`users, this`spaces, this`pending, this`trash
      ensures r == (if u !in old(users) then NotFound else if old(users)[u].admin then Forbidden else Deleted)
      ensures r != Deleted ==> View() == old(View()) && stages == []
      ensures AllStages(old(View()), stages, u) && (r == Deleted ==> View() in stages)
      ensures r == Deleted ==> u !in users && u !in spaces && u !in pending && trash == old(trash)
    {
      hide DeletionStage;
      ghost var s := View();
      stages := [];
      if u !in users { return NotFound, stages; }
      if users[u].admin { return Forbidden, stages; }
      r := Deleted;
      users := users - {u};
      RowGone(s, u);
      stages := stages + [View()];
      var tombstone := Tombstone(u, nonce);
      var moved := u in spaces;
      if moved {
        DetachStage(s, View(), u, tombstone);
        spaces, trash := spaces - {u}, trash[tombstone := spaces[u]];
        stages := stages + [View()];
      }
      if u in pending { stages := DropPending(s, u, stages); }
      if moved {
        stages := BurnTombstone(s, u, tombstone, stages);
        assert trash == old(trash);
      }
    }

    /** `_remove_pending_user_namespace`, marker by marker, then the directory. */
    method DropPending(ghost s: Tree, u: UserId, ghost start: seq<Tree>) returns (ghost stages: seq<Tree>)
      requires AllStages(s, start, u) && DeletionStage(s, View(), u) && u in pending
      modifies this`pending
      ensures AllStages(s, stages, u) && DeletionStage(s, View(), u) && View() in stages
      ensures pending == old(pending) - {u}
    {
      hide DeletionStage, Agrees, AllStages;
      AgreesSelf(pending, u);
      stages := start;
      var listing := pending[u];
      while listing != map[]
        invariant AllStages(s, stages, u) && DeletionStage(s, View(), u)
        invariant u in pending && Agrees(pending, old(pending), u)
        decreases |listing|
      {
        var f :| f in listing;
        MapLess(listing, f);
        listing := listing - {f};
        stages := SetPending(s, u, listing, stages);
      }
      AgreesWithout(pending, old(pending), u);
      StagePending(s, View(), u, pending - {u});
      pending := pending - {u};
      stages := Append(s, u, View(), stages);
    }

    /** One marker less. */
    method SetPending(ghost s: Tree, u: UserId, rest: Markers, ghost start: seq<Tree>) returns (ghost stages: seq<Tree>)
      requires AllStages(s, start, u) && DeletionStage(s, View(), u) && u in pending
      modifies this`pending
      ensures AllStages(s, stages, u) && DeletionStage(s, View(), u)
      ensures u in pending && forall m :: Agrees(old(pending), m, u) ==> Agrees(pending, m, u)
    {
      hide DeletionStage, AllStages;
      Overwrite(pending, pending, u, rest);
      StagePending(s, View(), u, pending[u := rest]);
      forall m | Agrees(old(pending), m, u) ensures Agrees(pending[u := rest], m, u) { Overwrite(pending, m, u, rest); }
      pending := pending[u := rest];
      stages := Append(s, u, View(), start);
    }

    /** Removal of a tombstone, file by file, then the directory. */
    method BurnTombstone(ghost s: Tree, u: UserId, tombstone: Tombstone, ghost start: seq<Tree>) returns (ghost stages: seq<Tree>)
      requires AllStages(s, start, u) && DeletionStage(s, View(), u) && tombstone in trash && tombstone.user == u
      modifies this`trash
      ensures AllStages(s, stages, u) && DeletionStage(s, View(), u) && View() in stages
      ensures trash == old(trash) - {tombstone}
    {
      hide DeletionStage, Agrees, AllStages;
      AgreesSelf(trash, tombstone);
      stages := start;
      var listing := trash[tombstone];
      while listing != map[]
        invariant AllStages(s, stages, u) && DeletionStage(s, View(), u)
        invariant tombstone in trash && Agrees(trash, old(trash), tombstone)
        decreases |listing|
      {
        var f :| f in listing;
        SizeWithout(listing, f);
        listing := listing - {f};
        stages := SetTombstone(s, u, tombstone, listing, stages);
      }
      AgreesWithout(trash, old(trash), tombstone);
      StageTrash(s, View(), u, tombstone, trash - {tombstone});
      trash := trash - {tombstone};
      stages := Append(s, u, View(), stages);
    }

    /** One file less. */
    method SetTombstone(ghost s: Tree, u: UserId, tombstone: Tombstone, rest: Space, ghost start: seq<Tree>) returns (ghost stages: seq<Tree>)
      requires AllStages(s, start, u) && DeletionStage(s, View(), u) && tombstone in trash && tombstone.user == u
      modifies this`trash
      ensures AllStages(s, stages, u) && DeletionStage(s, View(), u)
      ensures tombstone in trash && forall m :: Agrees(old(trash), m, tombstone) ==> Agrees(trash, m, tombstone)
    {
      hide DeletionStage, AllStages;
      Overwrite(trash, trash, tombstone, rest);
      StageTrash(s, View(), u, tombstone, trash[tombstone := rest]);
      forall m | Agrees(old(trash), m, tombstone) ensures Agrees(trash[tombstone := rest], m, tombstone) {
        Overwrite(trash, m, tombstone, rest);
      }
      trash := trash[tombstone := rest];
      stages := Append(s, u, View(), start);
    }
  }

  /** Every tree in the list is a stage of the deletion of u. */
  ghost predicate AllStages(s: Tree, stages: seq<Tree>, u: UserId) {
    forall i :: 0 <= i < |stages| ==> DeletionStage(s, stages[i], u)
  }

  ghost method Append(s: Tree, u: UserId, t: Tree, start: seq<Tree>) returns (stages: seq<Tree>)
    requires AllStages(s, start, u) && DeletionStage(s, t, u)
    ensures AllStages(s, stages, u) && stages == start + [t]
  {
    stages := start + [t];
  }

  datatype DeleteOutcome = Deleted | NotFound | Forbidden

  /** The entries of existing users. */
  function Existing<T>(entries: map<UserId, T>, users: map<UserId, Account>): map<UserId, T> {
    map u | u in entries && u in users :: entries[u]
  }

  ghost predicate Recovered(s: Tree, m: Tree, t: Tree, db: string) {
    if s.users == map[] then m == s && t == s
    else
      && TombstonesDone(s, m)
      && if m.usersDir && m.owner != Some(db)
         then t == m.(owner := if m.owner.None? then Some(db) else m.owner)
         else t == m.(spaces := Existing(m.spaces, s.users), pending := Existing(m.pending, s.users))
  }

  lemma FreshNonce(s: Tree, m: Tree, nonce: nat)
    requires TombstonesDone(s, m) && forall k :: k in s.trash ==> k.nonce != nonce
    ensures m.users == s.users && m.owner == s.owner && m.pending == s.pending
    ensures forall k :: k in m.trash ==> k.nonce != nonce
  {
  }

  lemma NoSpaces(s: Tree, m: Tree)
    requires TombstonesDone(s, m) && !m.usersDir
    ensures m.spaces == Existing(m.spaces, s.users)
  {
  }

  // ----- deletion, stage by stage -------------------------------------------------------------------------------------

  /** A tree that a crash during the deletion of u can leave: the row is gone, every other user is untouched, and what is
      left of u came from u. */
  ghost predicate DeletionStage(s: Tree, t: Tree, u: UserId) {
    && t.Valid() && t.users == s.users - {u} && u in s.users && t.owner == s.owner && t.usersDir == s.usersDir
    && (forall v :: v != u ==> SameUser(s, t, v))
  }

  lemma RowGone(s: Tree, u: UserId)
    requires s.Valid() && u in s.users
    ensures DeletionStage(s, s.(users := s.users - {u}), u)
  {
  }


  lemma DetachStage(s: Tree, t: Tree, u: UserId, k: Tombstone)
    requires DeletionStage(s, t, u) && k.user == u && u in t.spaces
    ensures DeletionStage(s, t.(spaces := t.spaces - {u}, trash := t.trash[k := t.spaces[u]]), u)
  {
    var next := t.(spaces := t.spaces - {u}, trash := t.trash[k := t.spaces[u]]);
    forall v | v != u ensures SameUser(s, next, v) { assert SameUser(s, t, v); }
  }

  lemma StagePending(s: Tree, t: Tree, u: UserId, pending: map<UserId, Markers>)
    requires DeletionStage(s, t, u) && Agrees(pending, t.pending, u)
    ensures DeletionStage(s, t.(pending := pending), u)
  {
    forall v | v != u ensures SameUser(s, t.(pending := pending), v) {
      assert SameUser(s, t, v);
      SameAt(pending, t.pending, u, v);
    }
  }

  lemma StageTrash(s: Tree, t: Tree, u: UserId, k: Tombstone, trash: map<Tombstone, Space>)
    requires DeletionStage(s, t, u) && k.user == u && Agrees(trash, t.trash, k)
    ensures DeletionStage(s, t.(trash := trash), u)
  {
    forall v | v != u ensures SameUser(s, t.(trash := trash), v) {
      assert SameUser(s, t, v);
      forall j: Tombstone | j.user == v ensures j in trash <==> j in t.trash ensures j in trash ==> trash[j] == t.trash[j] {
        SameAt(trash, t.trash, k, j);
      }
    }
  }

  lemma SameAt<K, V>(m: map<K, V>, n: map<K, V>, k: K, j: K)
    requires Agrees(m, n, k) && j != k
    ensures (j in m <==> j in n) && (j in m ==> m[j] == n[j])
  {
    assert j in m <==> j in m - {k};
    assert j in n <==> j in n - {k};
    assert j in m ==> (m - {k})[j] == m[j];
  }

  /** The maps differ at k only. */
  ghost predicate Agrees<K, V>(m: map<K, V>, n: map<K, V>, k: K) { m - {k} == n - {k} }

  lemma AgreesSelf<K, V>(m: map<K, V>, k: K)
    ensures Agrees(m, m, k)
  {
  }

  lemma Overwrite<K, V>(m: map<K, V>, n: map<K, V>, k: K, v: V)
    requires Agrees(m, n, k)
    ensures Agrees(m[k := v], n, k) && Agrees(m[k := v], m, k)
  {
    assert m[k := v] - {k} == m - {k};
  }

  lemma AgreesWithout<K, V>(m: map<K, V>, n: map<K, V>, k: K)
    requires Agrees(m, n, k)
    ensures m - {k} == n - {k} && Agrees(m - {k}, m, k)
  {
    assert m - {k} - {k} == m - {k};
  }

  lemma MapLess(markers: Markers, f: FileName)
    requires f in markers
    ensures |markers - {f}| < |markers|
  {
    assert markers.Keys == (markers - {f}).Keys + {f};
  }

  // ----- what a pass achieves ---------------------------------------------------------------------------------------------

  /** With a matching marker, or without users/, nothing of any missing user is left. */
  lemma PassCleans(s: Tree, m: Tree, t: Tree, db: string, u: UserId)
    requires Recovered(s, m, t, db) && s.Valid() && s.users != map[] && (FindsUsersDir(s) ==> s.owner == Some(db)) && u !in s.users
    ensures NoTrace(t, u)
  {
    hide FindsUsersDir;
    UsersDirAfter(s, m);
  }

  /** In every other case it leaves all directories and reservations of missing users. */
  lemma PassSpares(s: Tree, m: Tree, t: Tree, db: string, u: UserId)
    requires Recovered(s, m, t, db) && s.Valid() && FindsUsersDir(s) && s.owner != Some(db)
    ensures u in s.spaces ==> u in t.spaces && t.spaces[u] == s.spaces[u]
    ensures u in s.pending ==> u in t.pending && t.pending[u] == s.pending[u]
  {
    hide FindsUsersDir;
    if s.users != map[] { UsersDirAfter(s, m); }
  }

  /** A pass never loses or overwrites anything of an existing user: files and reservations stay; a tombstone stays unless
      it becomes the directory of a user without one. */
  lemma PassKeeps(s: Tree, m: Tree, t: Tree, db: string, u: UserId)
    requires Recovered(s, m, t, db) && u in s.users
    ensures t.users == s.users
    ensures u in s.spaces ==> u in t.spaces && t.spaces[u] == s.spaces[u]
    ensures u in s.pending ==> u in t.pending && t.pending[u] == s.pending[u]
    ensures forall k :: k in s.trash && k.user == u && k !in t.trash ==>
      u !in s.spaces && u in t.spaces && t.spaces[u] == s.trash[k]
    ensures forall k :: k in t.trash ==> k in s.trash && t.trash[k] == s.trash[k]
  {
  }

  /** With a foreign or missing marker no directory is removed, whosever it is. */
  lemma ForeignKeepsDirectories(s: Tree, m: Tree, t: Tree, db: string, u: UserId)
    requires Recovered(s, m, t, db) && s.Valid() && s.owner != Some(db) && u in s.spaces
    ensures u in t.spaces && t.spaces[u] == s.spaces[u]
  {
  }

  /** users/ exists when the pass comes to the directories: it did before, or a tombstone of an existing user brings it back. */
  ghost predicate FindsUsersDir(s: Tree) { s.usersDir || exists k :: k in s.trash && k.user in s.users }

  lemma UsersDirAfter(s: Tree, m: Tree)
    requires TombstonesDone(s, m) && s.Valid()
    ensures m.usersDir <==> FindsUsersDir(s)
  {
    if !s.usersDir && FindsUsersDir(s) {
      var k :| k in s.trash && k.user in s.users;
      assert k.user in m.spaces;
    }
  }

  /** The marker guards reservations only when the pass finds users/: a missing user's reservations survive a pass if and only if
      the table is empty, or users/ is found and the marker does not match. */
  lemma ReservationsOfMissing(s: Tree, m: Tree, t: Tree, db: string, u: UserId)
    requires Recovered(s, m, t, db) && s.Valid() && u !in s.users && u in s.pending
    ensures u in t.pending <==> s.users == map[] || (FindsUsersDir(s) && s.owner != Some(db))
  {
    hide FindsUsersDir;
    if s.users != map[] { UsersDirAfter(s, m); }
  }

  /** A pass that finds no marker writes its own, so that the next one cleans up: two passes leave nothing of any missing user unless
      the marker was another database's. */
  lemma TwoPassesClean(s: Tree, m: Tree, t: Tree, n: Tree, v: Tree, db: string, u: UserId)
    requires Recovered(s, m, t, db) && Recovered(t, n, v, db) && s.Valid() && t.Valid()
    requires s.owner.Some? ==> s.owner == Some(db)
    requires s.users != map[] && u !in s.users
    ensures NoTrace(v, u) && (FindsUsersDir(s) ==> v.owner == Some(db))
  {
    hide FindsUsersDir, TombstonesDone, NoTrace;
    OwnerAfter(s, m, t, db);
    OwnerAfter(t, n, v, db);
    if FindsUsersDir(s) || !FindsUsersDir(t) {
      PassCleans(t, n, v, db, u);
    } else {
      DirectoryStays(s, m, t, db);
    }
  }

  lemma OwnerAfter(s: Tree, m: Tree, t: Tree, db: string)
    requires Recovered(s, m, t, db) && s.Valid() && s.users != map[]
    ensures t.users == s.users && t.owner == if FindsUsersDir(s) && s.owner.None? then Some(db) else s.owner
  {
    hide FindsUsersDir;
    UsersDirAfter(s, m);
  }

  /** A pass that finds no directory leaves none to find. */
  lemma DirectoryStays(s: Tree, m: Tree, t: Tree, db: string)
    requires Recovered(s, m, t, db) && s.Valid() && s.users != map[] && !FindsUsersDir(s)
    ensures !FindsUsersDir(t)
  {
  }

  /** Without users/ a foreign marker does not protect the reservations of users the database does not know. */
  lemma ForeignReservationsLost()
    ensures var account := Account(true, true, {}, Blank, 0);
      var s := Tree(map[1 := account], false, map[], map[2 := map[]], map[], Some("other"));
      var t := s.(pending := map[]);
      s.Valid() && Recovered(s, s, t, "this")
  {
    var s := Tree(map[1 := Account(true, true, {}, Blank, 0)], false, map[], map[2 := map[]], map[], Some("other"));
    assert 1 in s.users;
    assert Existing(s.pending, s.users) == map[];
    assert Existing(s.spaces, s.users) == map[];
    assert TombstonesDone(s, s);
  }

  /** From every tree that a crash during a deletion can leave, one pass removes the rest and nothing else. */
  lemma DeletionCompletes(s: Tree, stage: Tree, m: Tree, t: Tree, db: string, u: UserId, v: UserId)
    requires DeletionStage(s, stage, u) && Recovered(stage, m, t, db)
    requires stage.users != map[] && s.owner == Some(db) && v in stage.users
    ensures NoTrace(t, u)
    ensures v in t.users && t.users[v] == s.users[v]
    ensures v in s.spaces ==> v in t.spaces && t.spaces[v] == s.spaces[v]
    ensures v in s.pending ==> v in t.pending && t.pending[v] == s.pending[v]
  {
    hide TombstonesDone, Recovered, FindsUsersDir;
    assert stage.Valid();
    FreshOwner(stage, m, t, db);
    PassCleans(stage, m, t, db, u);
    PassKeeps(stage, m, t, db, v);
    assert SameUser(s, stage, v);
  }

  lemma FreshOwner(s: Tree, m: Tree, t: Tree, db: string)
    requires Recovered(s, m, t, db)
    ensures m.owner == s.owner
  {
  }

  /** The pass in progress: `listing` is still to be looked at, `left` stays for a later pass. */
  ghost predicate Passing(s: Tree, t: Tree, listing: set<Tombstone>, left: set<Tombstone>) {
    && t.users == s.users && t.pending == s.pending && t.owner == s.owner && t.Valid()
    && (s.usersDir ==> t.usersDir) && (t.usersDir ==> s.usersDir || exists k :: k in s.trash && k.user in s.users)
    && listing <= t.trash.Keys && left == t.trash.Keys - listing
    && (forall k :: k in t.trash ==> k in s.trash && t.trash[k] == s.trash[k])
    && (forall k :: k in left ==> k.user in s.users && k.user in t.spaces)
    && (forall u :: u in s.spaces ==> u in t.spaces && t.spaces[u] == s.spaces[u])
    && (forall u :: u in t.spaces && u !in s.spaces ==> u in s.users && RestoredFrom(s, t, u))
    && (forall k :: k in s.trash && k !in t.trash && k.user in s.users ==>
          k.user !in s.spaces && k.user in t.spaces && t.spaces[k.user] == s.trash[k])
  }

  lemma PassStart(s: Tree)
    requires s.Valid()
    ensures Passing(s, s, s.trash.Keys, {})
  {
  }

  lemma PassEnd(s: Tree, t: Tree, left: set<Tombstone>)
    requires Passing(s, t, {}, left)
    ensures TombstonesDone(s, t) && left == t.trash.Keys
  {
  }

  lemma PassLeave(s: Tree, t: Tree, listing: set<Tombstone>, left: set<Tombstone>, k: Tombstone)
    requires Passing(s, t, listing, left) && k in listing && k.user in s.users && k.user in t.spaces
    ensures Passing(s, t, listing - {k}, left + {k})
  {
    hide RestoredFrom;
  }

  lemma PassRestore(s: Tree, t: Tree, listing: set<Tombstone>, left: set<Tombstone>, k: Tombstone)
    requires Passing(s, t, listing, left) && k in listing && k.user in s.users && k.user !in t.spaces
    ensures Passing(s, t.(usersDir := true, spaces := t.spaces[k.user := t.trash[k]], trash := t.trash - {k}), listing - {k}, left)
  {
    hide RestoredFrom;
    var b := t.(usersDir := true, spaces := t.spaces[k.user := t.trash[k]], trash := t.trash - {k});
    RestoreOne(s, t, b, k);
  }

  lemma PassBurn(s: Tree, t: Tree, listing: set<Tombstone>, left: set<Tombstone>, k: Tombstone)
    requires Passing(s, t, listing, left) && k in listing && k.user !in s.users
    ensures Passing(s, t.(trash := t.trash - {k}), listing - {k}, left)
  {
    hide RestoredFrom;
    BurnOne(s, t, t.(trash := t.trash - {k}), k);
  }

  lemma RestoreOne(s: Tree, a: Tree, b: Tree, k: Tombstone)
    requires k in a.trash && k in s.trash && a.trash[k] == s.trash[k] && k.user in s.users && k.user !in a.spaces
    requires b.spaces == a.spaces[k.user := a.trash[k]] && b.trash == a.trash - {k}
    requires forall j :: j in s.trash && j !in a.trash && j.user in s.users ==> j.user in a.spaces
    requires forall u :: u in a.spaces && u !in s.spaces ==> RestoredFrom(s, a, u)
    ensures forall u :: u in b.spaces && u !in s.spaces ==> RestoredFrom(s, b, u)
  {
    forall u | u in b.spaces && u !in s.spaces ensures RestoredFrom(s, b, u) {
      if u != k.user {
        var i :| i in s.trash && i !in a.trash && i.user == u && a.spaces[u] == s.trash[i]
          && forall j :: j in s.trash && j.user == u && j != i ==> j in a.trash;
        assert i !in b.trash;
      } else {
        assert k !in b.trash && b.spaces[u] == s.trash[k];
      }
    }
  }

  lemma BurnOne(s: Tree, a: Tree, b: Tree, k: Tombstone)
    requires k in a.trash && k.user !in s.users
    requires b.spaces == a.spaces && b.trash == a.trash - {k}
    requires forall u :: u in a.spaces && u !in s.spaces ==> u in s.users && RestoredFrom(s, a, u)
    ensures forall u :: u in b.spaces && u !in s.spaces ==> RestoredFrom(s, b, u)
  {
    forall u | u in b.spaces && u !in s.spaces ensures RestoredFrom(s, b, u) {
      var i :| i in s.trash && i !in a.trash && i.user == u && a.spaces[u] == s.trash[i]
        && forall j :: j in s.trash && j.user == u && j != i ==> j in a.trash;
      assert i !in b.trash;
    }
  }

  // ----- the writes of a deletion as steps of the protocol -----

  /** What the tree holds for a user, with the job that holds the user's lock. */
  function LocalOf(t: Tree, u: UserId, job: Option<RulesetProtocol.Job>): RulesetProtocol.Local {
    RulesetProtocol.Local(
      if u in t.users then Some(t.users[u]) else None,
      if u in t.spaces then Some(t.spaces[u]) else None,
      if u in t.pending then t.pending[u] else map[],
      map n: nat | n in (set k | k in t.trash && k.user == u :: k.nonce) :: t.trash[Tombstone(u, n)],
      job)
  }

  lemma RowIsStep(now: int, t: Tree, u: UserId)
    requires u in t.users && !t.users[u].admin
    ensures RulesetProtocol.Does(now, LocalOf(t, u, None), RulesetProtocol.DeleteRow,
              LocalOf(t.(users := t.users - {u}), u, Some(RulesetProtocol.Detaching(false))))
  {
  }

  lemma DetachIsStep(now: int, t: Tree, u: UserId, nonce: nat)
    requires u !in t.users && u in t.spaces && forall k :: k in t.trash ==> k.nonce != nonce
    ensures RulesetProtocol.Does(now, LocalOf(t, u, Some(RulesetProtocol.Detaching(false))), RulesetProtocol.Detach(nonce),
              LocalOf(t.(spaces := t.spaces - {u}, trash := t.trash[Tombstone(u, nonce) := t.spaces[u]]), u,
                      Some(RulesetProtocol.Unreserving(Some(nonce)))))
  {
    var v := t.(spaces := t.spaces - {u}, trash := t.trash[Tombstone(u, nonce) := t.spaces[u]]);
    assert LocalOf(v, u, None).trash == LocalOf(t, u, None).trash[nonce := t.spaces[u]] by { TrashPut(t, v, u, nonce); }
  }

  lemma TrashPut(t: Tree, v: Tree, u: UserId, nonce: nat)
    requires Tombstone(u, nonce) in v.trash && v.trash == t.trash[Tombstone(u, nonce) := v.trash[Tombstone(u, nonce)]]
    ensures LocalOf(v, u, None).trash == LocalOf(t, u, None).trash[nonce := v.trash[Tombstone(u, nonce)]]
  {
    var a, b := LocalOf(t, u, None).trash, LocalOf(v, u, None).trash;
    forall n: nat ensures n in b <==> n in a || n == nonce { TrashHas(t, u, n); TrashHas(v, u, n); }
  }

  lemma TrashHas(t: Tree, u: UserId, n: nat)
    ensures n in LocalOf(t, u, None).trash <==> Tombstone(u, n) in t.trash
  {
    if Tombstone(u, n) in t.trash { assert n in (set k | k in t.trash && k.user == u :: k.nonce); }
  }

  lemma ReservationIsStep(now: int, t: Tree, u: UserId, f: FileName, after: Option<nat>)
    requires u in t.pending
    ensures var job := Some(RulesetProtocol.Unreserving(after));
      RulesetProtocol.Does(now, LocalOf(t, u, job), RulesetProtocol.DropReservation(f),
        LocalOf(t.(pending := t.pending[u := t.pending[u] - {f}]), u, job))
  {
  }

  lemma BurnIsStep(now: int, t: Tree, u: UserId, nonce: nat, f: FileName)
    requires Tombstone(u, nonce) in t.trash
    ensures var job := Some(RulesetProtocol.Burning(nonce));
      RulesetProtocol.Does(now, LocalOf(t, u, job), RulesetProtocol.Burn(f),
        LocalOf(t.(trash := t.trash[Tombstone(u, nonce) := t.trash[Tombstone(u, nonce)] - {f}]), u, job))
  {
    var v := t.(trash := t.trash[Tombstone(u, nonce) := t.trash[Tombstone(u, nonce)] - {f}]);
    TrashHas(t, u, nonce);
    TrashPut(t, v, u, nonce);
  }
}
