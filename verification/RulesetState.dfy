/** One user's private ruleset files and database row, and the requests that change them
    (src/ruleset_store.py, src/api.py, src/storage.py). */
module RulesetState {
  import opened Options

  type Content = seq<int>

  /** An immutable version of an upload, or anything else found in the directory, such as a leftover temporary file. */
  datatype FileName = Version(alias: string, digest: string, extension: string) | Other(name: string)

  type Space = map<FileName, Content>

  /** What the rule providers of the published YAML refer to. */
  datatype Published = Blank | Unreadable | Lists(names: set<FileName>)

  datatype Account = Account(enabled: bool, admin: bool, draft: set<FileName>, published: Published, token: int)

  /** An upload reservation; one that cannot be parsed counts as expired. */
  datatype Marker = Until(expires: int) | Malformed

  predicate Active(m: Marker, now: int) { m.Until? && m.expires > now }

  const MAX_USER_BYTES := 32 * 1024 * 1024
  const MAX_USER_FILES := 100

  // ----- sizes --------------------------------------------------------------------------------------------

  ghost function Bytes(space: Space): nat {
    if space == map[] then 0
    else
      var f :| f in space;
      |space[f]| + Bytes(space - {f})
  }

  lemma {:induction false} BytesWithout(space: Space, f: FileName)
    requires f in space
    ensures Bytes(space) == |space[f]| + Bytes(space - {f})
    decreases |space|
  {
    var g :| g in space && Bytes(space) == |space[g]| + Bytes(space - {g});
    if g != f {
      BytesWithout(space - {g}, f);
      BytesWithout(space - {f}, g);
      assert space - {g} - {f} == space - {f} - {g};
    }
  }

  lemma SizeWithout(space: Space, f: FileName)
    requires f in space
    ensures |space - {f}| == |space| - 1
  {
    assert space.Keys == (space - {f}).Keys + {f};
  }

  lemma BytesWith(space: Space, f: FileName, content: Content)
    requires f !in space
    ensures Bytes(space[f := content]) == Bytes(space) + |content|
    ensures |space[f := content]| == |space| + 1
  {
    hide Bytes;
    BytesWithout(space[f := content], f);
    SizeWithout(space[f := content], f);
    assert space[f := content] - {f} == space;
  }

  lemma BytesReplaced(space: Space, f: FileName, content: Content)
    requires f in space
    ensures Bytes(space[f := content]) == Bytes(space) - |space[f]| + |content|
    ensures |space[f := content]| == |space|
  {
    hide Bytes;
    BytesWithout(space, f);
    BytesWithout(space[f := content], f);
    SizeWithout(space, f);
    SizeWithout(space[f := content], f);
    assert space[f := content] - {f} == space - {f};
  }

  lemma BytesLess(space: Space, f: FileName)
    ensures Bytes(space - {f}) <= Bytes(space) && |space - {f}| <= |space|
  {
    hide Bytes;
    if f in space {
      BytesWithout(space, f);
      SizeWithout(space, f);
    } else {
      assert space - {f} == space;
    }
  }

  ghost predicate WithinQuota(space: Space) { Bytes(space) <= MAX_USER_BYTES && |space| <= MAX_USER_FILES }

  // ----- references -----------------------------------------------------------------------------------------

  function Files(space: Option<Space>): Space { if space.Some? then space.value else map[] }

  /** What the saved draft and a readable published YAML refer to. */
  function Named(account: Account): set<FileName> {
    account.draft + if account.published.Lists? then account.published.names else {}
  }

  /** What a cleanup must keep for the saved draft and the published YAML; everything when the YAML is unreadable. */
  function KeepSet(account: Account, space: Option<Space>): set<FileName> {
    account.draft + match account.published
      case Blank => {}
      case Unreadable => Files(space).Keys
      case Lists(names) => names
  }
}
