/** What resolve() answers, and which texts name which addresses (sources/Core/TrustedProxies.cpp). */
module ProxyAnswers {
  import opened Optional
  import opened TrustedProxies

  // ---------------------------------------------------------------- the answer

  lemma NothingTrusted(t: Trust, a: Address)
    requires a.Valid() && t.v4 == [] && t.v6 == []
    ensures !Trusted(t, a)
  {
  }

  lemma HopsOfHeaders(headers: seq<string>)
    ensures Hops(headers) == [] <==> headers == []
  {
  }

  /** resolve() by its cases: a peer that is no address is returned as it is; one that is not trusted is the
      client; behind a trusted one the X-Forwarded-For headers name the client, by the definition of
      IsClient; without such headers X-Real-IP does, if it is an address; otherwise it is the peer. */
  lemma ResolvedExactly(lib: Library, t: Trust, peer: string, forwarded: seq<string>, realIp: Option<string>)
    requires lib.Valid()
    ensures var r := Resolved(lib, t, peer, forwarded, realIp);
            match Parse(lib, peer)
            case None => r == peer
            case Some(p) =>
              if !Trusted(t, p) then r == lib.show(p)
              else if forwarded != [] then
                forall client | IsClient(JudgeAll(lib, t, Hops(forwarded)), p, client) :: r == lib.show(client)
              else if realIp.Some? && Parse(lib, realIp.value).Some? then r == lib.show(Parse(lib, realIp.value).value)
              else r == lib.show(p)
  {
    var p := Parse(lib, peer);
    if p.Some? {
      if t.v4 == [] && t.v6 == [] { NothingTrusted(t, p.value); }
      HopsOfHeaders(forwarded);
      forall client | IsClient(JudgeAll(lib, t, Hops(forwarded)), p.value, client)
        ensures client == Client(lib, t, Hops(forwarded), p.value)
      {
        OneClient(JudgeAll(lib, t, Hops(forwarded)), p.value, client);
      }
    }
  }

  /** There always is such a client, and only one. */
  lemma ClientExists(lib: Library, t: Trust, forwarded: seq<string>, p: Address)
    requires lib.Valid()
    ensures exists client :: IsClient(JudgeAll(lib, t, Hops(forwarded)), p, client)
    ensures forall a, b | IsClient(JudgeAll(lib, t, Hops(forwarded)), p, a) && IsClient(JudgeAll(lib, t, Hops(forwarded)), p, b) :: a == b
  {
    var hops := JudgeAll(lib, t, Hops(forwarded));
    OneClient(hops, p, Scan(hops, p));
    forall a | IsClient(hops, p, a) ensures a == Scan(hops, p) {
      OneClient(hops, p, a);
    }
  }

  /** The address a text names, if it is one of our proxies. */
  predicate Ours(lib: Library, t: Trust, text: string)
    requires lib.Valid()
  {
    Parse(lib, text).Some? && Trusted(t, Parse(lib, text).value)
  }

  lemma JudgedByText(lib: Library, t: Trust, texts: seq<string>, k: nat)
    requires lib.Valid() && k < |texts|
    ensures JudgeAll(lib, t, texts)[k].Stops() <==> !Ours(lib, t, texts[k])
    ensures JudgeAll(lib, t, texts)[k].Garbage? <==> Parse(lib, texts[k]).None?
    ensures Parse(lib, texts[k]).Some? ==> JudgeAll(lib, t, texts)[k].address == Parse(lib, texts[k]).value
  {
    JudgedAt(lib, t, texts, k);
  }

  /** The client in terms of the texts. Hop k decides if all hops to the right of it are our proxies and it
      is not: an address is the client itself; garbage leaves the hop to its right, or the peer. */
  lemma DecidingHop(lib: Library, t: Trust, peer: string, forwarded: seq<string>, realIp: Option<string>, k: nat)
    requires lib.Valid() && Ours(lib, t, peer)
    requires var hops := Hops(forwarded);
             k < |hops| && !Ours(lib, t, hops[k]) && forall j | k < j < |hops| :: Ours(lib, t, hops[j])
    ensures var hops := Hops(forwarded);
            var client := if Parse(lib, hops[k]).Some? then hops[k] else if k + 1 < |hops| then hops[k + 1] else peer;
            Parse(lib, client).Some? && Resolved(lib, t, peer, forwarded, realIp) == lib.show(Parse(lib, client).value)
  {
    var hops := Hops(forwarded);
    var p := Parse(lib, peer).value;
    if t.v4 == [] && t.v6 == [] { NothingTrusted(t, p); }
    forall j: nat | j < |hops|
      ensures JudgeAll(lib, t, hops)[j].Stops() <==> !Ours(lib, t, hops[j])
      ensures JudgeAll(lib, t, hops)[j].Garbage? <==> Parse(lib, hops[j]).None?
      ensures Parse(lib, hops[j]).Some? ==> JudgeAll(lib, t, hops)[j].address == Parse(lib, hops[j]).value
    {
      JudgedByText(lib, t, hops, j);
    }
    assert k + 1 < |hops| ==> Ours(lib, t, hops[k + 1]);
    ScanDecides(JudgeAll(lib, t, hops), p, k);
  }

  /** If every hop is one of our proxies, the client is the leftmost. */
  lemma AllHopsOurs(lib: Library, t: Trust, peer: string, forwarded: seq<string>, realIp: Option<string>)
    requires lib.Valid() && Ours(lib, t, peer) && forwarded != []
    requires forall j | 0 <= j < |Hops(forwarded)| :: Ours(lib, t, Hops(forwarded)[j])
    ensures var hops := Hops(forwarded);
            hops != [] && Parse(lib, hops[0]).Some? && Resolved(lib, t, peer, forwarded, realIp) == lib.show(Parse(lib, hops[0]).value)
  {
    var hops := Hops(forwarded);
    HopsOfHeaders(forwarded);
    var p := Parse(lib, peer).value;
    if t.v4 == [] && t.v6 == [] { NothingTrusted(t, p); }
    forall j: nat | j < |hops|
      ensures !JudgeAll(lib, t, hops)[j].Stops()
      ensures JudgeAll(lib, t, hops)[j].address == Parse(lib, hops[j]).value
    {
      JudgedByText(lib, t, hops, j);
    }
    assert Ours(lib, t, hops[0]);
    ScanDecides(JudgeAll(lib, t, hops), p, -1);
  }

  // ---------------------------------------------------------------- what is trusted

  /** An empty list trusts nobody; two lists trust whom either trusts; one network trusts exactly the
      addresses of its own family, mapped ones included, that share its first bits. */
  lemma TrustOfBoth(a: Trust, b: Trust, address: Address)
    requires address.Valid()
    ensures !Trusted(Trust([], []), address)
    ensures Trusted(Trust(a.v4 + b.v4, a.v6 + b.v6), address) <==> Trusted(a, address) || Trusted(b, address)
  {
    var ip := Normalize(address);
    var l, r := if ip.V4? then a.v4 else a.v6, if ip.V4? then b.v4 else b.v6;
    assert forall i | 0 <= i < |r| :: (l + r)[|l| + i] == r[i];
    assert forall i | 0 <= i < |l| :: (l + r)[i] == l[i];
  }

  lemma TrustOfOne(net: Network, address: Address)
    requires address.Valid()
    ensures |net.bits| == 32 && net.length <= 32 ==>
              (Trusted(Trust([net], []), address) <==> Normalize(address).V4? && Normalize(address).bits[..net.length] == net.bits[..net.length])
    ensures |net.bits| == 128 && net.length <= 128 ==>
              (Trusted(Trust([], [net]), address) <==> Normalize(address).V6? && Normalize(address).bits[..net.length] == net.bits[..net.length])
  {
    assert [net][0] == net;
  }

  // ---------------------------------------------------------------- mapped addresses

  /** ::ffff:a.b.c.d */
  function MappedBits(bits: seq<bool>): seq<bool> {
    seq(80, i => false) + seq(16, i => true) + bits
  }

  /** Normalizing undoes the mapping of an IPv4 address into IPv6, and nothing else. */
  lemma NormalizeUnmaps(bits: seq<bool>)
    requires |bits| == 32
    ensures Normalize(V6(MappedBits(bits))) == V4(bits)
  {
    var m := MappedBits(bits);
    assert m[96..] == bits;
    assert Mapped(m);
  }

  lemma OnlyMappedChange(a: Address)
    requires a.Valid()
    ensures Normalize(a) == a || (a.V6? && Normalize(a).V4? && a.bits == MappedBits(Normalize(a).bits))
  {
    if a.V6? && Mapped(a.bits) {
      var m := MappedBits(a.bits[96..]);
      forall i | 0 <= i < 128 ensures a.bits[i] == m[i] {
      }
      assert a.bits == m;
    }
  }

  // ---------------------------------------------------------------- blanks

  predicate AllBlank(s: string) {
    forall i | 0 <= i < |s| :: s[i] in " \t"
  }

  lemma {:induction false} TrimLeftIsSuffix(s: string) returns (left: string)
    ensures AllBlank(left) && s == left + TrimLeft(s)
    ensures TrimLeft(s) != [] ==> TrimLeft(s)[0] !in " \t"
    decreases |s|
  {
    if s != [] && Blank(s[0]) {
      var rest := TrimLeftIsSuffix(s[1..]);
      left := [s[0]] + rest;
    } else {
      left := [];
    }
  }

  lemma {:induction false} TrimRightIsPrefix(s: string) returns (right: string)
    ensures AllBlank(right) && s == TrimRight(s) + right
    ensures TrimRight(s) != [] ==> TrimRight(s)[|TrimRight(s)| - 1] !in " \t"
    decreases |s|
  {
    if s != [] && Blank(s[|s| - 1]) {
      var rest := TrimRightIsPrefix(s[..|s| - 1]);
      right := rest + [s[|s| - 1]];
    } else {
      right := [];
    }
  }

  /** trim() removes blanks, all those at both ends and nothing else. */
  lemma TrimIsTheMiddle(s: string) returns (left: string, right: string)
    ensures AllBlank(left) && AllBlank(right) && s == left + Trim(s) + right
    ensures Trim(s) != [] ==> Trim(s)[0] !in " \t" && Trim(s)[|Trim(s)| - 1] !in " \t"
  {
    left := TrimLeftIsSuffix(s);
    right := TrimRightIsPrefix(TrimLeft(s));
    assert TrimLeft(s) == Trim(s) + right;
    assert Trim(s) != [] ==> Trim(s)[0] == TrimLeft(s)[0];
    assert left + (Trim(s) + right) == left + Trim(s) + right;
  }

  // ---------------------------------------------------------------- the part that is an address

  /** No blanks around it, and no quotes. */
  predicate Neat(t: string) {
    t != [] && t[0] !in " \t\"" && t[|t| - 1] !in " \t"
  }

  lemma {:induction false} CountOfBoth(a: string, b: string, c: char)
    ensures Count(a + b, c) == Count(a, c) + Count(b, c)
    decreases |a|
  {
    if a == [] {
      assert a + b == b;
    } else {
      assert (a + b)[1..] == a[1..] + b;
      CountOfBoth(a[1..], b, c);
    }
  }

  lemma {:induction false} CountNone(s: string, c: char)
    requires c !in s
    ensures Count(s, c) == 0
  {
    if s != [] {
      CountNone(s[1..], c);
    }
  }

  lemma {:induction false} FindIs(s: string, c: char, start: nat, at: nat)
    requires start <= at <= |s| && (at < |s| ==> s[at] == c)
    requires forall i | start <= i < at :: s[i] != c
    ensures Find(s, c, start) == at
    decreases at - start
  {
    if start < at {
      FindIs(s, c, start + 1, at);
    }
  }

  lemma NeatIsTrimmed(t: string)
    requires Neat(t)
    ensures Trim(t) == t
  {
  }

  /** "[" host "]", with or without a port behind it, names the host. */
  lemma BracketedHost(host: string, rest: string)
    requires ']' !in host && (rest == [] || rest[|rest| - 1] !in " \t")
    ensures Bare("[" + host + "]" + rest) == Some(host)
  {
    var t := "[" + host + "]" + rest;
    NeatIsTrimmed(t);
    assert forall i | 1 <= i < |host| + 1 :: t[i] == host[i - 1];
    assert t[|host| + 1] == ']';
    FindIs(t, ']', 0, |host| + 1);
    assert t[1..|host| + 1] == host;
  }

  /** A bracket that is never closed is garbage. */
  lemma OpenBracket(host: string)
    requires ']' !in host && (host == [] || host[|host| - 1] !in " \t")
    ensures Bare("[" + host).None?
  {
    var t := "[" + host;
    NeatIsTrimmed(t);
    assert forall i | 1 <= i < |t| :: t[i] == host[i - 1];
    FindIs(t, ']', 0, |t|);
  }

  /** host ":" port, with one colon, names the host. */
  lemma HostAndPort(host: string, port: string)
    requires ':' !in host && ':' !in port && (host == [] || (Neat(host) && host[0] != '['))
    requires port == [] || port[|port| - 1] !in " \t"
    ensures Bare(host + ":" + port) == Some(host)
  {
    var t := host + ":" + port;
    NeatIsTrimmed(t);
    CountOfBoth(host + ":", port, ':');
    CountOfBoth(host, ":", ':');
    CountNone(host, ':');
    CountNone(port, ':');
    assert Count(":", ':') == 1 by {
      assert ":"[1..] == [];
    }
    assert forall i | 0 <= i < |host| :: t[i] == host[i];
    assert t[|host|] == ':';
    FindIs(t, ':', 0, |host|);
    assert t[..|host|] == host;
  }

  /** A text with no colon or several, and no bracket, names itself: an IPv4 or a bare IPv6 address. */
  lemma PlainHost(host: string)
    requires Neat(host) && host[0] != '[' && Count(host, ':') != 1
    ensures Bare(host) == Some(host)
  {
    NeatIsTrimmed(host);
  }

  /** Quotes around an address make no difference. */
  lemma QuotedHost(t: string)
    requires Neat(t)
    ensures Bare("\"" + t + "\"") == Bare(t)
  {
    var q := "\"" + t + "\"";
    assert q[0] == '"' && q[|q| - 1] == '"' && !Blank('"');
    assert Trim(q) == q;
    NeatIsTrimmed(t);
    assert q[1..|q| - 1] == t;
  }

  lemma EmptyQuotes()
    ensures Bare("\"\"") == Some("")
  {
    var q := "\"\"";
    assert Trim(q) == q;
    assert q[1..1] == "";
  }

  /** Nor do blanks. */
  lemma {:induction false} BlanksIgnored(left: string, t: string, right: string)
    requires AllBlank(left) && AllBlank(right) && Neat(t)
    ensures Bare(left + t + right) == Bare(t)
  {
    TrimLeftSkips(left, t + right);
    assert left + (t + right) == left + t + right;
    assert (t + right)[0] == t[0];
    TrimRightSkips(t, right);
    NeatIsTrimmed(t);
  }

  lemma {:induction false} TrimLeftSkips(left: string, t: string)
    requires AllBlank(left)
    ensures TrimLeft(left + t) == TrimLeft(t)
    decreases |left|
  {
    if left == [] {
      assert left + t == t;
    } else {
      assert (left + t)[0] == left[0];
      assert (left + t)[1..] == left[1..] + t;
      TrimLeftSkips(left[1..], t);
    }
  }

  lemma {:induction false} TrimRightSkips(t: string, right: string)
    requires AllBlank(right)
    ensures TrimRight(t + right) == TrimRight(t)
    decreases |right|
  {
    if right == [] {
      assert t + right == t;
    } else {
      var s := t + right;
      assert s[|s| - 1] == right[|right| - 1];
      assert s[..|s| - 1] == t + right[..|right| - 1];
      TrimRightSkips(t, right[..|right| - 1]);
    }
  }

  // ---------------------------------------------------------------- the text of a network

  /** address "/" length is that network, if the length fits the family; without a slash it is the address
      alone. */
  lemma NetworkText(lib: Library, address: string, n: nat)
    requires lib.Valid() && '/' !in address && n < 1000
    ensures var a := Parse(lib, address);
            && ParseCidr(lib, address + "/" + Decimal(n))
               == (if a.None? then BadAddress else if n > a.value.Width() then BadPrefix else Cidr(a.value, n))
            && ParseCidr(lib, address) == (if a.None? then BadAddress else Cidr(a.value, a.value.Width()))
  {
    var text := address + "/" + Decimal(n);
    assert forall i | 0 <= i < |address| :: text[i] == address[i];
    assert text[|address|] == '/';
    FindIs(text, '/', 0, |address|);
    FindIs(address, '/', 0, |address|);
    assert text[..|address|] == address && address[..|address|] == address;
    assert text[|address| + 1..] == Decimal(n);
    LengthsAreRead(n);
  }
}
