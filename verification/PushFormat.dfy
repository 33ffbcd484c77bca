/** The checks of a publication before its bundle is looked at (`validate_submission`). */
module PushFormat {
  import opened Outcome
  import opened ResultText
  import opened PushStore
  import C = Compaction

  /** What a guest writes for a branch that does not exist yet. */
  const ZERO_OID: string := "0000000000000000000000000000000000000000"

  predicate Alphanumeric(c: char) { 'a' <= c <= 'z' || 'A' <= c <= 'Z' || '0' <= c <= '9' }

  predicate NameChar(c: char) { Alphanumeric(c) || c == '-' || c == '_' || c == '.' }

  predicate Hex(c: char) { '0' <= c <= '9' || 'a' <= c <= 'f' || 'A' <= c <= 'F' }

  predicate EndsWith(s: string, end: string) { |end| <= |s| && s[|s| - |end|..] == end }

  predicate Contains(s: string, part: string) { exists i :: 0 <= i <= |s| && part <= s[i..] }

  /** The parts between slashes; there is always at least one. */
  function Parts(s: string): (r: seq<string>)
    ensures r != []
  {
    if s == [] then [""]
    else
      var rest := Parts(s[1..]);
      if s[0] == '/' then [""] + rest else [[s[0]] + rest[0]] + rest[1..]
  }

  predicate RepositoryPart(s: string) {
    s != "" && |s| <= 100 && s[0] != '.' && s[|s| - 1] != '.' && forall i :: 0 <= i < |s| ==> NameChar(s[i])
  }

  predicate RepositoryOk(s: string) {
    var parts := Parts(s);
    |parts| == 2 && RepositoryPart(parts[0]) && RepositoryPart(parts[1])
  }

  predicate BranchPart(s: string) { s != "" && s[0] != '.' && s[|s| - 1] != '.' && !EndsWith(s, ".lock") }

  predicate BranchOk(s: string) {
    && s != "" && |s| <= 240 && !("refs/" <= s) && s[0] != '/' && s[0] != '.' && s[|s| - 1] != '/' && s[|s| - 1] != '.'
    && !Contains(s, "..") && !Contains(s, "//") && !Contains(s, "@{") && !EndsWith(s, ".lock")
    && (forall i :: 0 <= i < |Parts(s)| ==> BranchPart(Parts(s)[i]))
    && forall i :: 0 <= i < |s| ==> NameChar(s[i]) || s[i] == '/'
  }

  predicate OidOk(s: string) { |s| == 40 && (forall i :: 0 <= i < |s| ==> Hex(s[i])) && s != ZERO_OID }

  predicate WellFormed(key: string, r: Submission) {
    && key != "" && C.Bytes(key) <= 128 && r.owner.session != "" && C.Bytes(r.owner.session) <= 256
    && RepositoryOk(r.target.repository) && BranchOk(r.target.branch) && OidOk(r.base)
    && (r.expected.Some? ==> OidOk(r.expected.value))
  }

  /** `parts.join("/")`. */
  function Joined(parts: seq<string>): string {
    if parts == [] then "" else if |parts| == 1 then parts[0] else parts[0] + "/" + Joined(parts[1..])
  }

  lemma {:induction false} JoinedFirst(c: char, rest: seq<string>)
    requires rest != []
    ensures Joined([""] + rest) == "/" + Joined(rest)
    ensures Joined([[c] + rest[0]] + rest[1..]) == [c] + Joined(rest)
  {
    var more := [[c] + rest[0]] + rest[1..];
    assert ([""] + rest)[1..] == rest && more[1..] == rest[1..] && more[0] == [c] + rest[0];
    assert Joined([""] + rest) == "" + "/" + Joined(rest);
    if |rest| > 1 { assert Joined(rest) == rest[0] + "/" + Joined(rest[1..]); }
  }

  /** The parts are what the slashes separate. */
  lemma {:induction false} PartsJoin(s: string)
    ensures Joined(Parts(s)) == s && forall i :: 0 <= i < |Parts(s)| ==> '/' !in Parts(s)[i]
  {
    if s != [] {
      PartsJoin(s[1..]);
      JoinedFirst(s[0], Parts(s[1..]));
      hide Joined;
      assert s == [s[0]] + s[1..];
    }
  }

  /** Every accepted repository is an owner and a name. */
  lemma {:induction false} OwnerAndName(s: string) returns (owner: string, name: string)
    requires RepositoryOk(s)
    ensures s == owner + "/" + name && '/' !in owner && '/' !in name && owner != "" && name != ""
  {
    PartsJoin(s);
    owner, name := Parts(s)[0], Parts(s)[1];
    assert Parts(s)[1..] == [name];
  }
}
