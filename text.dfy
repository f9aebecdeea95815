/** The string rules of pat_helper.py: stripping slashes from the
    configured server address and token path, splitting the LDAP host list
    on commas, the distinguished name of the user, and the request URLs. */
module Text {

  /** `s.rstrip('/')`: `s` without all of its trailing slashes. */
  function RStripSlash(s: string): (r: string)
    ensures r <= s
    ensures forall k :: |r| <= k < |s| ==> s[k] == '/'
    ensures r == [] || r[|r| - 1] != '/'
    decreases |s|
  {
    if s != [] && s[|s| - 1] == '/' then RStripSlash(s[..|s| - 1]) else s
  }

  /** `s.lstrip('/')`: `s` without all of its leading slashes. */
  function LStripSlash(s: string): (r: string)
    ensures |r| <= |s| && r == s[|s| - |r|..]
    ensures forall k :: 0 <= k < |s| - |r| ==> s[k] == '/'
    ensures r == [] || r[0] != '/'
    decreases |s|
  {
    if s != [] && s[0] == '/' then LStripSlash(s[1..]) else s
  }

  /** Stripping twice strips nothing more. */
  lemma StripIdempotent(s: string)
    ensures RStripSlash(RStripSlash(s)) == RStripSlash(s)
    ensures LStripSlash(LStripSlash(s)) == LStripSlash(s)
  {
  }

  /** The number of occurrences of `c` in `s`. */
  function Count(s: string, c: char): nat {
    if s == [] then 0 else (if s[0] == c then 1 else 0) + Count(s[1..], c)
  }

  /** `s.split(',')`: the pieces of `s` between its commas, the empty
      string giving one empty piece. */
  function Split(s: string): (parts: seq<string>)
    ensures |parts| == Count(s, ',') + 1
    ensures forall p <- parts :: ',' !in p
    decreases |s|
  {
    if s == [] then [""]
    else
      var rest := Split(s[1..]);
      if s[0] == ',' then [""] + rest
      else [[s[0]] + rest[0]] + rest[1..]
  }

  /** `','.join(parts)`. */
  function Join(parts: seq<string>): string {
    if parts == [] then ""
    else if |parts| == 1 then parts[0]
    else parts[0] + "," + Join(parts[1..])
  }

  /** Prepending comma-free text `a` to `s` glues it onto the first piece. */
  lemma {:induction false} SplitAfter(a: string, s: string)
    requires ',' !in a
    ensures Split(a + s) == [a + Split(s)[0]] + Split(s)[1..]
    decreases |a|
  {
    if a == [] {
      var parts := Split(s);
      assert a + s == s && a + parts[0] == parts[0];
      assert parts == [parts[0]] + parts[1..];
    } else {
      SplitAfter(a[1..], s);
      assert (a + s)[1..] == a[1..] + s;
      assert [a[0]] + (a[1..] + Split(s)[0]) == a + Split(s)[0];
    }
  }

  /** Joining `x + parts[0]` with the rest is `x` followed by the join. */
  lemma {:induction false} JoinGlued(x: string, parts: seq<string>)
    requires parts != []
    ensures Join([x + parts[0]] + parts[1..]) == x + Join(parts)
  {
    var glued := [x + parts[0]] + parts[1..];
    if |parts| > 1 {
      assert glued[1..] == parts[1..];
    }
  }

  /** Joining the pieces of a split gives back the input. */
  lemma {:induction false} JoinSplit(s: string)
    ensures Join(Split(s)) == s
    decreases |s|
  {
    if s != [] {
      var rest := Split(s[1..]);
      JoinSplit(s[1..]);
      if s[0] == ',' {
        assert ([""] + rest)[1..] == rest;
        assert s == [','] + s[1..];
      } else {
        JoinGlued([s[0]], rest);
        assert s == [s[0]] + s[1..];
      }
    }
  }

  /** Splitting the join of comma-free pieces gives back the pieces. */
  lemma {:induction false} SplitJoin(parts: seq<string>)
    requires parts != []
    requires forall p <- parts :: ',' !in p
    ensures Split(Join(parts)) == parts
    decreases |parts|
  {
    if |parts| == 1 {
      SplitAfter(parts[0], "");
      assert parts[0] + "" == parts[0];
    } else {
      var tail := Join(parts[1..]);
      SplitJoin(parts[1..]);
      assert Join(parts) == parts[0] + ("," + tail);
      SplitAfter(parts[0], "," + tail);
      assert ("," + tail)[1..] == tail;
      assert Split("," + tail) == [""] + parts[1..];
      assert parts[0] + "" == parts[0];
      assert parts == [parts[0]] + parts[1..];
    }
  }

  /** The distinguished name bound as: `CN=<user>,<path>`. */
  function UserDn(user: string, path: string): string {
    "CN=" + user + "," + path
  }

  /** A user name without commas is the whole first component of the
      distinguished name, and the path's components follow it unchanged. */
  lemma DnSplitsAtUser(user: string, path: string)
    requires ',' !in user
    ensures Split(UserDn(user, path)) == ["CN=" + user] + Split(path)
  {
    var cn := "CN=" + user;
    assert ',' !in cn by {
      assert forall k :: 0 <= k < |cn| ==> cn[k] == (if k < 3 then "CN="[k] else user[k - 3]);
    }
    assert UserDn(user, path) == cn + ("," + path);
    SplitAfter(cn, "," + path);
    assert ("," + path)[1..] == path;
    assert Split("," + path) == [""] + Split(path);
    assert cn + "" == cn;
  }

  /** `{host}/{uri}/{user}`: the URL that token creation PUTs to. */
  function TokensUrl(host: string, uri: string, user: string): string {
    host + "/" + uri + "/" + user
  }

  /** `{host}/{uri}/{user}/{id}`: the URL that revocation DELETEs. */
  function TokenUrl(host: string, uri: string, user: string, id: string): string {
    TokensUrl(host, uri, user) + "/" + id
  }

  /** The slash that joins a host without a trailing slash to a path
      without a leading slash has no slash beside it. */
  lemma SlashJoinsOnce(host: string, uri: string, user: string, id: string)
    requires host == [] || host[|host| - 1] != '/'
    requires uri == [] || uri[0] != '/'
    ensures var url := TokensUrl(host, uri, user);
      && url[|host|] == '/'
      && (host != [] ==> url[|host| - 1] != '/')
      && (uri != [] ==> url[|host| + 1] != '/')
      && url <= TokenUrl(host, uri, user, id)
  {
    var rest := "/" + uri + "/" + user;
    assert TokensUrl(host, uri, user) == host + rest;
    assert rest[0] == '/';
    assert uri != [] ==> rest[1] == uri[0];
    assert TokenUrl(host, uri, user, id) == TokensUrl(host, uri, user) + ("/" + id);
  }

  /** With the host and the token path normalised as the configuration
      reader does, the slash joining them in either URL is never doubled. */
  lemma SingleSlashBetweenHostAndPath(baseUrl: string, patUri: string, user: string, id: string)
    ensures var host, uri := RStripSlash(baseUrl), LStripSlash(patUri);
      var url := TokensUrl(host, uri, user);
      && url[|host|] == '/'
      && (host != [] ==> url[|host| - 1] != '/')
      && (uri != [] ==> url[|host| + 1] != '/')
      && url <= TokenUrl(host, uri, user, id)
  {
    var host, uri := RStripSlash(baseUrl), LStripSlash(patUri);
    assert host == [] || host[|host| - 1] != '/';
    assert uri == [] || uri[0] != '/';
    SlashJoinsOnce(host, uri, user, id);
  }
}
