/** `DBConf.GetConnectionString` of examples/exampleapp/internal/config/config.go:
    a libpq key/value string built by plain concatenation, with the port
    rendered by `strconv.Itoa`. */
module DbConf {
  import opened Base
  import Strconv

  datatype DBConf = DBConf(host: string, port: int, user: string, password: string, dbName: string, sslMode: string)

  /** `c.GetConnectionString()`. */
  function GetConnectionString(c: DBConf): (s: string)
    ensures |s| == |c.host| + |Strconv.Itoa(c.port)| + |c.user| + |c.password| + |c.dbName| + |c.sslMode| + 44
  {
    "host=" + c.host +
    " port=" + Strconv.Itoa(c.port) +
    " user=" + c.user +
    " password=" + c.password +
    " dbname=" + c.dbName +
    " sslmode=" + c.sslMode
  }

  /** The six `key=value` pairs, keys in their fixed order. */
  function Pairs(c: DBConf): seq<string> {
    ["host=" + c.host, "port=" + Strconv.Itoa(c.port), "user=" + c.user,
     "password=" + c.password, "dbname=" + c.dbName, "sslmode=" + c.sslMode]
  }

  /** The strings of `ts` separated by single spaces. */
  function Join(ts: seq<string>): string
    requires |ts| >= 1
    decreases |ts|
  {
    if |ts| == 1 then ts[0] else ts[0] + " " + Join(ts[1..])
  }

  /** `s` cut at every space. */
  function Split(s: string): (ts: seq<string>)
    ensures |ts| >= 1
    decreases |s|
  {
    if s == [] then [""]
    else if s[0] == ' ' then [""] + Split(s[1..])
    else
      var rest := Split(s[1..]);
      [[s[0]] + rest[0]] + rest[1..]
  }

  predicate NoSpace(s: string) {
    forall i | 0 <= i < |s| :: s[i] != ' '
  }

  /** The connection string is the six pairs joined by spaces, in key order. */
  lemma ConnectionStringIsJoin(c: DBConf)
    ensures GetConnectionString(c) == Join(Pairs(c))
  {
    JoinSix(Pairs(c));
    SpacedPairs(c.host, Strconv.Itoa(c.port), c.user, c.password, c.dbName, c.sslMode);
  }

  lemma JoinSix(p: seq<string>)
    requires |p| == 6
    ensures Join(p) == p[0] + " " + p[1] + " " + p[2] + " " + p[3] + " " + p[4] + " " + p[5]
  {
    assert p[5..] == [p[5]];
    assert p[4..][1..] == p[5..];
    assert p[3..][1..] == p[4..];
    assert p[2..][1..] == p[3..];
    assert p[1..][1..] == p[2..];
    assert Join(p[4..]) == p[4] + " " + p[5];
    assert Join(p[3..]) == p[3] + " " + (p[4] + " " + p[5]);
    assert Join(p[2..]) == p[2] + " " + (p[3] + " " + (p[4] + " " + p[5]));
    assert Join(p[1..]) == p[1] + " " + (p[2] + " " + (p[3] + " " + (p[4] + " " + p[5])));
  }

  lemma SpacedPairs(h: string, port: string, u: string, pw: string, d: string, m: string)
    ensures "host=" + h + " port=" + port + " user=" + u + " password=" + pw + " dbname=" + d + " sslmode=" + m
         == ("host=" + h) + " " + ("port=" + port) + " " + ("user=" + u) + " " + ("password=" + pw)
            + " " + ("dbname=" + d) + " " + ("sslmode=" + m)
  {
    assert " port=" == " " + "port=";
    assert " user=" == " " + "user=";
    assert " password=" == " " + "password=";
    assert " dbname=" == " " + "dbname=";
    assert " sslmode=" == " " + "sslmode=";
  }

  lemma {:induction false} SplitPrefix(t: string, r: string)
    requires NoSpace(t)
    ensures Split(t + r) == [t + Split(r)[0]] + Split(r)[1..]
    decreases |t|
  {
    if t != [] {
      assert (t + r)[0] == t[0];
      assert (t + r)[1..] == t[1..] + r;
      SplitPrefix(t[1..], r);
      assert [t[0]] + (t[1..] + Split(r)[0]) == t + Split(r)[0];
    } else {
      assert t + r == r;
      assert Split(r) == [Split(r)[0]] + Split(r)[1..];
      assert t + Split(r)[0] == Split(r)[0];
    }
  }

  /** Splitting undoes joining when no piece contains a space. */
  lemma {:induction false} SplitJoin(ts: seq<string>)
    requires |ts| >= 1
    requires forall i | 0 <= i < |ts| :: NoSpace(ts[i])
    ensures Split(Join(ts)) == ts
    decreases |ts|
  {
    if |ts| == 1 {
      SplitPrefix(ts[0], "");
      assert ts[0] + "" == ts[0];
    } else {
      var rest := Join(ts[1..]);
      SplitJoin(ts[1..]);
      SplitSpace(rest);
      SplitPrefix(ts[0], " " + rest);
      assert Join(ts) == ts[0] + (" " + rest);
      assert ts[0] + "" == ts[0];
      assert [ts[0]] + ts[1..] == ts;
    }
  }

  lemma SplitSpace(r: string)
    ensures Split(" " + r) == [""] + Split(r)
  {
    assert (" " + r)[0] == ' ';
    assert (" " + r)[1..] == r;
  }

  /** The value after `key` in `t`, when `t` starts with `key`. */
  function ValueAfter(t: string, key: string): Option<string> {
    if |key| <= |t| && t[..|key|] == key then Some(t[|key|..]) else None
  }

  /** Reads a connection string back into its fields: six space-separated
      pairs, with the expected keys in order and an Atoi-valid port. */
  function Parse(s: string): Option<DBConf> {
    var ts := Split(s);
    if |ts| != 6 then None
    else
      var h := ValueAfter(ts[0], "host=");
      var p := ValueAfter(ts[1], "port=");
      var u := ValueAfter(ts[2], "user=");
      var pw := ValueAfter(ts[3], "password=");
      var d := ValueAfter(ts[4], "dbname=");
      var m := ValueAfter(ts[5], "sslmode=");
      if h.None? || p.None? || u.None? || pw.None? || d.None? || m.None? then None
      else match Strconv.Atoi(p.value)
        case None => None
        case Some(port) => Some(DBConf(h.value, port, u.value, pw.value, d.value, m.value))
  }

  predicate NoSpaces(c: DBConf) {
    NoSpace(c.host) && NoSpace(c.user) && NoSpace(c.password) && NoSpace(c.dbName) && NoSpace(c.sslMode)
  }

  lemma ValueAfterKey(key: string, v: string)
    ensures ValueAfter(key + v, key) == Some(v)
  {
    assert (key + v)[..|key|] == key;
    assert (key + v)[|key|..] == v;
  }

  lemma KeyPrefixNoSpace(key: string, v: string)
    requires NoSpace(key) && NoSpace(v)
    ensures NoSpace(key + v)
  {
    assert forall i | 0 <= i < |key + v| :: (key + v)[i] == if i < |key| then key[i] else v[i - |key|];
  }

  /** No pair contains a space when no text field does (the port never does). */
  lemma PairsNoSpace(c: DBConf)
    requires NoSpaces(c)
    ensures forall i | 0 <= i < |Pairs(c)| :: NoSpace(Pairs(c)[i])
  {
    KeyPrefixNoSpace("host=", c.host);
    KeyPrefixNoSpace("port=", Strconv.Itoa(c.port));
    KeyPrefixNoSpace("user=", c.user);
    KeyPrefixNoSpace("password=", c.password);
    KeyPrefixNoSpace("dbname=", c.dbName);
    KeyPrefixNoSpace("sslmode=", c.sslMode);
  }

  /** Cutting the connection string at its spaces gives back the six pairs. */
  lemma SplitConnectionString(c: DBConf)
    requires NoSpaces(c)
    ensures Split(GetConnectionString(c)) == Pairs(c)
  {
    ConnectionStringIsJoin(c);
    PairsNoSpace(c);
    SplitJoin(Pairs(c));
  }

  /** The fields come back from the string when none of the text fields
      contains a space and the port is a 64-bit Go int. */
  lemma ParseRoundTrip(c: DBConf)
    requires NoSpaces(c) && Strconv.InInt64(c.port)
    ensures Parse(GetConnectionString(c)) == Some(c)
  {
    var ts := Split(GetConnectionString(c));
    var port := Strconv.Itoa(c.port);
    SplitConnectionString(c);
    assert ts[0] == "host=" + c.host && ts[1] == "port=" + port && ts[2] == "user=" + c.user;
    assert ts[3] == "password=" + c.password && ts[4] == "dbname=" + c.dbName && ts[5] == "sslmode=" + c.sslMode;
    ValueAfterKey("host=", c.host);
    ValueAfterKey("port=", port);
    ValueAfterKey("user=", c.user);
    ValueAfterKey("password=", c.password);
    ValueAfterKey("dbname=", c.dbName);
    ValueAfterKey("sslmode=", c.sslMode);
    Strconv.AtoiItoa(c.port);
  }

  /** Values are inserted verbatim, without quoting, so a value containing a
      space and a key can pass for two pairs: different configurations can
      give the same string. */
  lemma NotInjectiveWithSpaces()
    ensures var c1 := DBConf("h", 1, "u password=p", "x", "d", "s");
            var c2 := DBConf("h", 1, "u", "p password=x", "d", "s");
            c1 != c2 && GetConnectionString(c1) == GetConnectionString(c2)
  {
    var one := Strconv.Itoa(1);
    assert Strconv.NumeralValue(one) == 1;
  }
}
