/** Which address a request comes from when it passed through proxies (sources/Core/TrustedProxies.cpp). */
module TrustedProxies {

  import opened Optional

  // ---------------------------------------------------------------- addresses and networks

  /** An address as its bits, the most significant first. */
  datatype Address = V4(bits: seq<bool>) | V6(bits: seq<bool>)
  {
    ghost predicate Valid() {
      |bits| == Width()
    }

    function Width(): nat {
      if V4? then 32 else 128
    }
  }

  /** ::ffff:0:0/96: eighty zero bits, then sixteen ones. */
  predicate Mapped(bits: seq<bool>)
    requires |bits| >= 96
  {
    (forall i | 0 <= i < 80 :: !bits[i]) && (forall i | 80 <= i < 96 :: bits[i])
  }

  /** normalize(): an IPv4-mapped IPv6 address (::ffff:a.b.c.d) becomes the IPv4 address. */
  function Normalize(a: Address): (r: Address)
    requires a.Valid()
    ensures r.Valid()
    ensures r.V6? ==> !Mapped(r.bits)
  {
    if a.V6? && Mapped(a.bits) then V4(a.bits[96..]) else a
  }

  /** A CIDR network in canonical form: host bits are zero. */
  datatype Network = Network(bits: seq<bool>, length: nat)

  function Canonical(bits: seq<bool>, length: nat): seq<bool>
    requires length <= |bits|
  {
    bits[..length] + seq(|bits| - length, i => false)
  }

  ghost predicate WellFormed(nets: seq<Network>, width: nat) {
    forall i | 0 <= i < |nets| ::
      && |nets[i].bits| == width && nets[i].length <= width
      && nets[i].bits == Canonical(nets[i].bits, nets[i].length)
  }

  /** The address is in the network: its first `length` bits are the network's (section 3.1 of RFC 4632). */
  predicate InNetwork(bits: seq<bool>, net: Network) {
    net.length <= |bits| && net.length <= |net.bits| && bits[..net.length] == net.bits[..net.length]
  }

  lemma CanonicalIsPrefix(bits: seq<bool>, net: Network)
    requires |net.bits| == |bits| && net.length <= |bits| && net.bits == Canonical(net.bits, net.length)
    ensures Canonical(bits, net.length) == net.bits <==> InNetwork(bits, net)
  {
    assert Canonical(bits, net.length)[..net.length] == bits[..net.length];
    assert Canonical(net.bits, net.length)[..net.length] == net.bits[..net.length];
  }

  /** The networks believed in. */
  datatype Trust = Trust(v4: seq<Network>, v6: seq<Network>)
  {
    ghost predicate Valid() {
      WellFormed(v4, 32) && WellFormed(v6, 128)
    }
  }

  predicate InSome(bits: seq<bool>, nets: seq<Network>) {
    exists i | 0 <= i < |nets| :: InNetwork(bits, nets[i])
  }

  predicate Trusted(t: Trust, a: Address)
    requires a.Valid()
  {
    var ip := Normalize(a);
    InSome(ip.bits, if ip.V4? then t.v4 else t.v6)
  }

  // ---------------------------------------------------------------- the text of an address

  predicate Blank(c: char) {
    c == ' ' || c == '\t'
  }

  function TrimLeft(s: string): string {
    if s != [] && Blank(s[0]) then TrimLeft(s[1..]) else s
  }

  function TrimRight(s: string): string {
    if s != [] && Blank(s[|s| - 1]) then TrimRight(s[..|s| - 1]) else s
  }

  function Trim(s: string): string {
    TrimRight(TrimLeft(s))
  }

  function Count(s: string, c: char): nat {
    if s == [] then 0 else (if s[0] == c then 1 else 0) + Count(s[1..], c)
  }

  /** string_view::find from a position: the first c at or after it, or npos. */
  function Find(s: string, c: char, start: nat): (r: nat)
    requires start <= |s|
    ensures start <= r <= |s|
    ensures r < |s| ==> s[r] == c
    ensures forall i | start <= i < r :: s[i] != c
    decreases |s| - start
  {
    if start == |s| || s[start] == c then start else Find(s, c, start + 1)
  }

  /** The part of a hop that names the address: without blanks, quotes, brackets and port. */
  function Bare(text: string): Option<string> {
    var t := Trim(text);
    var u := if |t| >= 2 && t[0] == '"' && t[|t| - 1] == '"' then t[1..|t| - 1] else t;
    if u != [] && u[0] == '[' then
      var end := Find(u, ']', 0);
      if end == |u| then None else Some(u[1..end])
    else if Count(u, ':') == 1 then Some(u[..Find(u, ':', 0)])
    else Some(u)
  }

  /** The address parser and printer of the network library. */
  datatype Library = Library(make: string -> Option<Address>, show: Address -> string)
  {
    ghost predicate Valid() {
      forall s :: make(s).Some? ==> make(s).value.Valid()
    }
  }

  /** parseAddress() */
  function Parse(lib: Library, text: string): (r: Option<Address>)
    requires lib.Valid()
    ensures r.Some? ==> r.value.Valid() && Normalize(r.value) == r.value
  {
    var bare := Bare(text);
    if bare.None? then None
    else
      var a := lib.make(bare.value);
      if a.None? then None else Some(Normalize(a.value))
  }

  // ---------------------------------------------------------------- the text of a network

  predicate Digit(c: char) {
    '0' <= c <= '9'
  }

  /** stoul() of a text of digits. */
  function Value(digits: string): nat
    requires forall i | 0 <= i < |digits| :: Digit(digits[i])
  {
    if digits == [] then 0
    else
      assert Digit(digits[|digits| - 1]);
      10 * Value(digits[..|digits| - 1]) + (digits[|digits| - 1] - '0') as nat
  }

  /** The prefix length behind the slash: one to three digits. */
  function Length(digits: string): Option<nat> {
    if digits == [] || |digits| > 3 || exists i | 0 <= i < |digits| :: !Digit(digits[i]) then None
    else Some(Value(digits))
  }

  function Decimal(n: nat): string {
    if n < 10 then ['0' + n as char] else Decimal(n / 10) + ['0' + (n % 10) as char]
  }

  lemma {:induction false} ValueOfDecimal(n: nat)
    ensures forall i | 0 <= i < |Decimal(n)| :: Digit(Decimal(n)[i])
    ensures Value(Decimal(n)) == n
    ensures n < 10 ==> |Decimal(n)| == 1
    ensures n >= 10 ==> |Decimal(n)| == |Decimal(n / 10)| + 1
  {
    var d := Decimal(n);
    if n >= 10 {
      ValueOfDecimal(n / 10);
      assert d[..|d| - 1] == Decimal(n / 10);
    } else {
      assert d[..|d| - 1] == [];
    }
  }

  /** Every prefix length that can be meant, and many that are too long, can be written. */
  lemma LengthsAreRead(n: nat)
    requires n < 1000
    ensures Length(Decimal(n)) == Some(n)
  {
    ValueOfDecimal(n);
    ValueOfDecimal(n / 10);
    ValueOfDecimal(n / 10 / 10);
  }

  datatype Cidr = BadAddress | BadPrefix | Cidr(address: Address, length: nat)

  /** What add() makes of its text: an address, and its first `length` bits; all of them without a slash. */
  function ParseCidr(lib: Library, cidr: string): (r: Cidr)
    requires lib.Valid()
    ensures r.Cidr? ==> r.address.Valid() && Normalize(r.address) == r.address && r.length <= r.address.Width()
  {
    var slash := Find(cidr, '/', 0);
    var address := Parse(lib, cidr[..slash]);
    if address.None? then BadAddress
    else
      var width := address.value.Width();
      var length := if slash == |cidr| then Some(width) else Length(cidr[slash + 1..]);
      if length.None? || length.value > width then BadPrefix else Cidr(address.value, length.value)
  }

  // ---------------------------------------------------------------- splitting the header

  /** The pieces of the header from a position on. */
  function SplitFrom(v: string, start: nat): (r: seq<string>)
    requires start <= |v|
    ensures r != []
    decreases |v| - start
  {
    var comma := Find(v, ',', start);
    if comma == |v| then [v[start..]] else [v[start..comma]] + SplitFrom(v, comma + 1)
  }

  function Split(v: string): (r: seq<string>)
    ensures r != []
  {
    SplitFrom(v, 0)
  }

  function Join(pieces: seq<string>): string
    requires pieces != []
  {
    if |pieces| == 1 then pieces[0] else pieces[0] + "," + Join(pieces[1..])
  }

  /** Several X-Forwarded-For headers are one list, in order. */
  function Hops(headers: seq<string>): seq<string> {
    if headers == [] then [] else Split(headers[0]) + Hops(headers[1..])
  }

  predicate CommaFree(pieces: seq<string>) {
    forall i | 0 <= i < |pieces| :: ',' !in pieces[i]
  }

  lemma JoinCons(piece: string, rest: seq<string>)
    requires rest != []
    ensures Join([piece] + rest) == piece + "," + Join(rest)
  {
    assert ([piece] + rest)[1..] == rest;
  }

  lemma CutAt(v: string, start: nat, comma: nat)
    requires start <= comma < |v| && v[comma] == ','
    ensures v[start..] == v[start..comma] + "," + v[comma + 1..]
  {
  }

  lemma {:induction false} JoinFrom(v: string, start: nat)
    requires start <= |v|
    ensures Join(SplitFrom(v, start)) == v[start..]
    decreases |v| - start
  {
    var comma := Find(v, ',', start);
    if comma < |v| {
      JoinFrom(v, comma + 1);
      JoinCons(v[start..comma], SplitFrom(v, comma + 1));
      CutAt(v, start, comma);
    }
  }

  lemma {:induction false} NoCommas(v: string, start: nat)
    requires start <= |v|
    ensures CommaFree(SplitFrom(v, start))
    decreases |v| - start
  {
    var comma := Find(v, ',', start);
    if comma < |v| {
      NoCommas(v, comma + 1);
    }
  }

  /** Rejoining the pieces gives the header back, and no piece has a comma. */
  lemma SplitThenJoin(v: string)
    ensures Join(Split(v)) == v && CommaFree(Split(v))
  {
    JoinFrom(v, 0);
    NoCommas(v, 0);
    assert v[0..] == v;
  }

  /** The inner loop of resolve(): the pieces from a position on are appended one by one. */
  function SplitOnto(pieces: seq<string>, v: string, start: nat): seq<string>
    decreases |v| + 1 - start
  {
    if start > |v| then pieces
    else var comma := Find(v, ',', start); SplitOnto(pieces + [v[start..comma]], v, comma + 1)
  }

  lemma {:induction false} SplitOntoAppends(pieces: seq<string>, v: string, start: nat)
    requires start <= |v|
    ensures SplitOnto(pieces, v, start) == pieces + SplitFrom(v, start)
    decreases |v| - start
  {
    var comma := Find(v, ',', start);
    if comma < |v| {
      SplitOntoAppends(pieces + [v[start..comma]], v, comma + 1);
      Regroup(pieces, [v[start..comma]], SplitFrom(v, comma + 1));
    } else {
      assert v[start..comma] == v[start..];
    }
  }

  lemma Regroup<T>(a: seq<T>, b: seq<T>, c: seq<T>)
    ensures a + (b + c) == (a + b) + c
  {
  }

  /** Two texts cut at their first comma. */
  lemma SameCut(x: string, s: string, y: string, t: string)
    requires ',' !in x && ',' !in y && x + "," + s == y + "," + t
    ensures x == y && s == t
  {
    var v := x + "," + s;
    assert v[|x|] == ',' && v[|y|] == ',';
    assert v[..|x|] == x && v[..|y|] == y;
    assert |x| == |y|;
    assert v[|x| + 1..] == s && v[|y| + 1..] == t;
  }

  lemma JoinOfMore(pieces: seq<string>)
    ensures |pieces| > 1 ==> Join(pieces) == pieces[0] + "," + Join(pieces[1..]) && ',' in Join(pieces)
  {
    if |pieces| > 1 {
      assert Join(pieces)[|pieces[0]|] == ',';
    }
  }

  lemma Uncons(a: seq<string>, b: seq<string>)
    requires a != [] && b != [] && a[0] == b[0] && a[1..] == b[1..]
    ensures a == b
  {
    assert a == [a[0]] + a[1..] && b == [b[0]] + b[1..];
  }

  /** Different lists of pieces without commas are never joined to the same text. */
  lemma {:induction false} JoinIsInjective(a: seq<string>, b: seq<string>)
    requires a != [] && b != [] && CommaFree(a) && CommaFree(b) && Join(a) == Join(b)
    ensures a == b
    decreases |a|
  {
    JoinOfMore(a);
    JoinOfMore(b);
    if |a| > 1 {
      SameCut(a[0], Join(a[1..]), b[0], Join(b[1..]));
      JoinIsInjective(a[1..], b[1..]);
      Uncons(a, b);
    }
  }

  /** Splitting what was joined gives the pieces back: there is no other way to split. */
  lemma JoinThenSplit(pieces: seq<string>)
    requires pieces != [] && CommaFree(pieces)
    ensures Split(Join(pieces)) == pieces
  {
    SplitThenJoin(Join(pieces));
    JoinIsInjective(Split(Join(pieces)), pieces);
  }

  lemma {:induction false} HopsOfBoth(left: seq<string>, right: seq<string>)
    ensures Hops(left + right) == Hops(left) + Hops(right)
  {
    if left == [] {
      assert left + right == right;
    } else {
      assert (left + right)[1..] == left[1..] + right;
      HopsOfBoth(left[1..], right);
    }
  }

  // ---------------------------------------------------------------- the client

  /** What the library and our networks make of a hop's text. */
  datatype Hop = Garbage | Ours(address: Address) | Other(address: Address)
  {
    /** Nothing left of this hop is believed: it is garbage or not one of our proxies. */
    predicate Stops() { !Ours? }
  }

  function Judged(lib: Library, t: Trust, text: string): Hop
    requires lib.Valid()
  {
    var a := Parse(lib, text);
    if a.None? then Garbage else if Trusted(t, a.value) then Ours(a.value) else Other(a.value)
  }

  function JudgeAll(lib: Library, t: Trust, texts: seq<string>): (r: seq<Hop>)
    requires lib.Valid()
    ensures |r| == |texts|
  {
    if texts == [] then [] else [Judged(lib, t, texts[0])] + JudgeAll(lib, t, texts[1..])
  }

  lemma {:induction false} JudgedAt(lib: Library, t: Trust, texts: seq<string>, i: nat)
    requires lib.Valid() && i < |texts|
    ensures JudgeAll(lib, t, texts)[i] == Judged(lib, t, texts[i])
  {
    if i > 0 {
      JudgedAt(lib, t, texts[1..], i - 1);
    }
  }

  lemma {:induction false} JudgeBoth(lib: Library, t: Trust, left: seq<string>, right: seq<string>)
    requires lib.Valid()
    ensures JudgeAll(lib, t, left + right) == JudgeAll(lib, t, left) + JudgeAll(lib, t, right)
  {
    if left == [] {
      assert left + right == right;
    } else {
      assert (left + right)[1..] == left[1..] + right;
      JudgeBoth(lib, t, left[1..], right);
    }
  }

  /** The scan from the right; `closest` is the closest trusted hop so far, at first the peer. */
  function Scan(hops: seq<Hop>, closest: Address): Address
    decreases |hops|
  {
    if hops == [] then closest
    else
      match hops[|hops| - 1]
      case Garbage => closest
      case Other(a) => a
      case Ours(a) => Scan(hops[..|hops| - 1], a)
  }

  ghost predicate RightmostStop(hops: seq<Hop>, k: nat) {
    k < |hops| && hops[k].Stops() && forall j | k < j < |hops| :: !hops[j].Stops()
  }

  ghost predicate SomeStops(hops: seq<Hop>) {
    exists i | 0 <= i < |hops| :: hops[i].Stops()
  }

  /** Who the client is when hop k decides: hop k itself if it is an address, otherwise its right
      neighbour, or the peer. With k = -1 no hop stops the scan: the leftmost hop, or the peer. */
  function Decided(hops: seq<Hop>, peer: Address, k: int): Address
    requires -1 <= k < |hops|
    requires forall j | k < j < |hops| :: !hops[j].Stops()
  {
    if k >= 0 && !hops[k].Garbage? then hops[k].address
    else if k + 1 < |hops| then assert !hops[k + 1].Stops(); hops[k + 1].address
    else peer
  }

  /** The client by its definition: the rightmost hop that is garbage or untrusted decides. */
  ghost predicate IsClient(hops: seq<Hop>, peer: Address, client: Address) {
    && (forall k: nat | RightmostStop(hops, k) :: client == Decided(hops, peer, k))
    && (!SomeStops(hops) ==> client == Decided(hops, peer, -1))
  }

  lemma {:induction false} ScanDecides(hops: seq<Hop>, peer: Address, k: int)
    requires -1 <= k < |hops|
    requires forall j | k < j < |hops| :: !hops[j].Stops()
    requires k >= 0 ==> hops[k].Stops()
    ensures Scan(hops, peer) == Decided(hops, peer, k)
    decreases |hops|
  {
    var last := |hops| - 1;
    if k < last {
      assert !hops[last].Stops();
      ScanDecides(hops[..last], hops[last].address, k);
    }
  }

  /** The scan from the right finds the client, and the definition leaves no other choice. */
  lemma OneClient(hops: seq<Hop>, peer: Address, client: Address)
    ensures IsClient(hops, peer, client) <==> client == Scan(hops, peer)
  {
    if SomeStops(hops) {
      var k := LastStop(hops);
      ScanDecides(hops, peer, k);
      forall other: nat | RightmostStop(hops, other) ensures other == k {}
    } else {
      ScanDecides(hops, peer, -1);
    }
  }

  lemma {:induction false} LastStop(hops: seq<Hop>) returns (k: nat)
    requires SomeStops(hops)
    ensures RightmostStop(hops, k)
    decreases |hops|
  {
    var last := |hops| - 1;
    if hops[last].Stops() {
      k := last;
    } else {
      var i :| 0 <= i < |hops| && hops[i].Stops();
      assert hops[..last][i] == hops[i];
      k := LastStop(hops[..last]);
      forall j | k < j < |hops| ensures !hops[j].Stops() {
        assert j < last ==> hops[..last][j] == hops[j];
      }
    }
  }

  /** Whatever stands left of a hop that stops the scan, the result is the same. */
  lemma {:induction false} LeftIsIgnored(left: seq<Hop>, hops: seq<Hop>, peer: Address)
    requires SomeStops(hops)
    ensures Scan(left + hops, peer) == Scan(hops, peer)
    decreases |hops|
  {
    var last := |hops| - 1;
    var i :| 0 <= i < |hops| && hops[i].Stops();
    assert (left + hops)[|left + hops| - 1] == hops[last];
    if !hops[last].Stops() {
      assert hops[..last][i] == hops[i];
      assert (left + hops)[..|left + hops| - 1] == left + hops[..last];
      LeftIsIgnored(left, hops[..last], hops[last].address);
    }
  }

  /** The client for a list of hops as text. */
  function Client(lib: Library, t: Trust, texts: seq<string>, peer: Address): Address
    requires lib.Valid()
  {
    Scan(JudgeAll(lib, t, texts), peer)
  }

  lemma LeftTextIsIgnored(lib: Library, t: Trust, left: seq<string>, texts: seq<string>, peer: Address)
    requires lib.Valid() && SomeStops(JudgeAll(lib, t, texts))
    ensures Client(lib, t, left + texts, peer) == Client(lib, t, texts, peer)
  {
    JudgeBoth(lib, t, left, texts);
    LeftIsIgnored(JudgeAll(lib, t, left), JudgeAll(lib, t, texts), peer);
  }

  /** resolve() as a whole. */
  function Resolved(lib: Library, t: Trust, peer: string, forwarded: seq<string>, realIp: Option<string>): string
    requires lib.Valid()
  {
    var p := Parse(lib, peer);
    if p.None? then peer
    else if (t.v4 == [] && t.v6 == []) || !Trusted(t, p.value) then lib.show(p.value)
    else if Hops(forwarded) != [] then lib.show(Client(lib, t, Hops(forwarded), p.value))
    else if realIp.Some? && Parse(lib, realIp.value).Some? then lib.show(Parse(lib, realIp.value).value)
    else lib.show(p.value)
  }

  /** A client that talks to us directly cannot choose its address: unless the peer is one of our
      proxies, no header matters. */
  lemma UntrustedPeerIsItself(lib: Library, t: Trust, peer: string, forwarded: seq<string>, realIp: Option<string>)
    requires lib.Valid() && Parse(lib, peer).Some? && !Trusted(t, Parse(lib, peer).value)
    ensures Resolved(lib, t, peer, forwarded, realIp) == lib.show(Parse(lib, peer).value)
  {
  }

  /** Extra headers in front of those our proxies wrote change nothing once a hop among the latter
      stops the scan. */
  lemma ForgedHeadersAreIgnored(lib: Library, t: Trust, peer: string, forged: seq<string>, forwarded: seq<string>, realIp: Option<string>)
    requires lib.Valid() && SomeStops(JudgeAll(lib, t, Hops(forwarded)))
    ensures Resolved(lib, t, peer, forged + forwarded, realIp) == Resolved(lib, t, peer, forwarded, realIp)
  {
    HopsOfBoth(forged, forwarded);
    var p := Parse(lib, peer);
    if p.Some? {
      LeftTextIsIgnored(lib, t, Hops(forged), Hops(forwarded), p.value);
    }
  }

  lemma SplitOfBoth(forged: string, rest: string)
    ensures Split(forged + "," + rest) == Split(forged) + Split(rest)
  {
    SplitThenJoin(forged);
    SplitThenJoin(rest);
    JoinOfBoth(Split(forged), Split(rest));
    JoinThenSplit(Split(forged) + Split(rest));
  }

  lemma HopsOfOne(header: string)
    ensures Hops([header]) == Split(header)
  {
    assert [header][1..] == [];
    assert Split(header) + [] == Split(header);
  }

  lemma ForgedHops(before: seq<string>, forged: string, rest: string, more: seq<string>)
    ensures Hops(before + [forged + "," + rest] + more) == Hops(before) + Split(forged) + Hops([rest] + more)
  {
    HopsOfBoth(before + [forged + "," + rest], more);
    HopsOfBoth(before, [forged + "," + rest]);
    HopsOfOne(forged + "," + rest);
    SplitOfBoth(forged, rest);
    HopsOfBoth([rest], more);
    HopsOfOne(rest);
    Regroup(Hops(before), Split(forged), Split(rest));
    Regroup(Hops(before) + Split(forged), Split(rest), Hops(more));
  }

  /** All that a client can write: headers of its own in front, and text in front within the header that
      our first proxy extended. None of it changes the result of resolve(), as long as a hop among those
      our proxies wrote (the rest of that header, and further headers) stops the scan. */
  lemma ForgedPrefixIsIgnored(lib: Library, t: Trust, peer: string, before: seq<string>, forged: string, rest: string,
                              more: seq<string>, realIp: Option<string>)
    requires lib.Valid() && SomeStops(JudgeAll(lib, t, Hops([rest] + more)))
    ensures Resolved(lib, t, peer, before + [forged + "," + rest] + more, realIp) == Resolved(lib, t, peer, [rest] + more, realIp)
  {
    ForgedHops(before, forged, rest, more);
    var p := Parse(lib, peer);
    if p.Some? {
      LeftTextIsIgnored(lib, t, Hops(before) + Split(forged), Hops([rest] + more), p.value);
    }
  }

  lemma {:induction false} JoinOfBoth(left: seq<string>, right: seq<string>)
    requires left != [] && right != []
    ensures Join(left + right) == Join(left) + "," + Join(right)
    decreases |left|
  {
    assert (left + right)[1..] == left[1..] + right;
    if |left| > 1 {
      JoinOfBoth(left[1..], right);
    } else {
      assert left[1..] + right == right;
    }
  }
}

/** The object with its loops. */
module TrustedProxiesObject {
  import opened Optional
  import opened TrustedProxies

  /** trim(): blanks removed from the front, then from the back, one at a time. */
  method TrimText(text: string) returns (r: string)
    ensures r == Trim(text)
  {
    r := text;
    while r != [] && Blank(r[0])
      invariant TrimLeft(r) == TrimLeft(text)
      decreases |r|
    {
      r := r[1..];
    }
    ghost var front := r;
    while r != [] && Blank(r[|r| - 1])
      invariant TrimRight(r) == TrimRight(front)
      decreases |r|
    {
      r := r[..|r| - 1];
    }
  }

  class Proxies {
    var v4: seq<Network>
    var v6: seq<Network>

    ghost function View(): Trust
      reads this
    {
      Trust(v4, v6)
    }

    constructor ()
      ensures View() == Trust([], [])
    {
      v4, v6 := [], [];
    }

    /** add(): a text that is no network is refused and changes nothing; otherwise exactly the addresses
        that share the network's first bits are trusted in addition. */
    method Add(lib: Library, cidr: string) returns (error: Option<Cidr>)
      requires lib.Valid() && View().Valid()
      modifies this
      ensures View().Valid()
      ensures error == if ParseCidr(lib, cidr).Cidr? then None else Some(ParseCidr(lib, cidr))
      ensures error.Some? ==> View() == old(View())
      ensures error.None? ==>
                var c := ParseCidr(lib, cidr);
                forall a: Address | a.Valid() ::
                  Trusted(View(), a) <==>
                    || Trusted(old(View()), a)
                    || (Normalize(a).V4? == c.address.V4? && Normalize(a).bits[..c.length] == c.address.bits[..c.length])
    {
      var slash := Find(cidr, '/', 0);
      var address := Parse(lib, cidr[..slash]);
      if address.None? {
        return Some(BadAddress);
      }
      var prefix := address.value.Width();
      if slash < |cidr| {
        var length := Length(cidr[slash + 1..]);
        if length.None? {
          return Some(BadPrefix);
        }
        prefix := length.value;
      }
      if prefix > address.value.Width() {
        return Some(BadPrefix);
      }
      AddNetwork(address.value, prefix);
      return None;
    }

    /** The canonical network is kept. */
    method AddNetwork(address: Address, length: nat)
      requires address.Valid() && Normalize(address) == address && length <= address.Width() && View().Valid()
      modifies this
      ensures View().Valid()
      ensures forall a: Address | a.Valid() ::
                Trusted(View(), a) <==>
                  || Trusted(old(View()), a)
                  || (Normalize(a).V4? == address.V4? && Normalize(a).bits[..length] == address.bits[..length])
    {
      var net := Network(Canonical(address.bits, length), length);
      assert net.bits[..length] == address.bits[..length];
      assert Canonical(net.bits, length) == net.bits;
      if address.V4? {
        OneMore(v4, net);
        v4 := v4 + [net];
      } else {
        OneMore(v6, net);
        v6 := v6 + [net];
      }
    }

    lemma OneMore(nets: seq<Network>, net: Network)
      ensures forall bits :: InSome(bits, nets + [net]) <==> InSome(bits, nets) || InNetwork(bits, net)
    {
      forall bits ensures InSome(bits, nets + [net]) <==> InSome(bits, nets) || InNetwork(bits, net) {
        assert (nets + [net])[|nets|] == net;
        assert forall i | 0 <= i < |nets| :: (nets + [net])[i] == nets[i];
      }
    }

    /** contains(): the loop over the networks of the address's family. */
    method Contains(address: Address) returns (r: bool)
      requires address.Valid() && View().Valid()
      ensures r == Trusted(View(), address)
    {
      var ip := Normalize(address);
      var nets := if ip.V4? then v4 else v6;
      for i := 0 to |nets|
        invariant forall j | 0 <= j < i :: !InNetwork(ip.bits, nets[j])
      {
        CanonicalIsPrefix(ip.bits, nets[i]);
        if Canonical(ip.bits, nets[i].length) == nets[i].bits {
          return true;
        }
      }
      return false;
    }

    /** The inner loop of resolve(): one header value cut at its commas. */
    method SplitInto(hops: seq<string>, value: string) returns (r: seq<string>)
      ensures r == hops + Split(value)
    {
      r := hops;
      var start := 0;
      SplitOntoAppends(hops, value, 0);
      while start <= |value|
        invariant start <= |value| + 1
        invariant SplitOnto(r, value, start) == SplitOnto(hops, value, 0)
        decreases |value| + 1 - start
      {
        var comma := Find(value, ',', start);
        r := r + [value[start..comma]];
        start := comma + 1;
      }
    }

    /** The list of hops of all the headers, in order. */
    method CollectHops(forwarded: seq<string>) returns (hops: seq<string>)
      ensures hops == Hops(forwarded)
    {
      hops := [];
      for i := 0 to |forwarded|
        invariant hops + Hops(forwarded[i..]) == Hops(forwarded)
      {
        assert forwarded[i..][1..] == forwarded[i + 1..];
        Regroup(hops, Split(forwarded[i]), Hops(forwarded[i + 1..]));
        hops := SplitInto(hops, forwarded[i]);
      }
    }

    method Judge(lib: Library, text: string) returns (hop: Hop)
      requires lib.Valid() && View().Valid()
      ensures hop == Judged(lib, View(), text)
    {
      var address := Parse(lib, text);
      if address.None? {
        return Garbage;
      }
      var inside := Contains(address.value);
      return if inside then Ours(address.value) else Other(address.value);
    }

    /** The loop from right to left. */
    method ScanHops(lib: Library, hops: seq<string>, peer: Address) returns (client: Address)
      requires lib.Valid() && View().Valid()
      ensures client == Client(lib, View(), hops, peer)
    {
      client := peer;
      ghost var judged := JudgeAll(lib, View(), hops);
      var n := |hops|;
      assert judged[..n] == judged;
      while n > 0
        invariant 0 <= n <= |hops|
        invariant Scan(judged[..n], client) == Scan(judged, peer)
      {
        var hop := Judge(lib, hops[n - 1]);
        JudgedAt(lib, View(), hops, n - 1);
        assert judged[..n][..n - 1] == judged[..n - 1];
        match hop {
          case Garbage => return client;
          case Other(address) => return address;
          case Ours(address) => client := address;
        }
        n := n - 1;
      }
    }

    method Resolve(lib: Library, peer: string, forwarded: seq<string>, realIp: Option<string>) returns (r: string)
      requires lib.Valid() && View().Valid()
      ensures r == Resolved(lib, View(), peer, forwarded, realIp)
    {
      var peerAddress := Parse(lib, peer);
      if peerAddress.None? {
        return peer;
      }
      var known := Contains(peerAddress.value);
      if (v4 == [] && v6 == []) || !known {
        return lib.show(peerAddress.value);
      }
      var hops := CollectHops(forwarded);
      if hops != [] {
        var client := ScanHops(lib, hops, peerAddress.value);
        return lib.show(client);
      }
      if realIp.Some? {
        var address := Parse(lib, realIp.value);
        if address.Some? {
          return lib.show(address.value);
        }
      }
      return lib.show(peerAddress.value);
    }
  }
}
