/** The client's address through nginx, the portal and the backend: what each makes of X-Forwarded-For. */
module ProxyChain {
  import opened Common
  import opened Sequences

  /**
   * What the two languages and the address library decide: white space, which texts are addresses of
   * proxies (`hop`) or of trusted peers, and the canonical form of an address.
   */
  datatype World = World(
    jsSpace: char -> bool,
    pySpace: char -> bool,
    hop: string -> bool,
    trusted: string -> bool,
    canonical: string -> Option<string>)

  // ----- splitting a header into its parts -----

  function TrimLeft(s: string, space: char -> bool): string {
    if s != "" && space(s[0]) then TrimLeft(s[1..], space) else s
  }

  function TrimRight(s: string, space: char -> bool): string {
    if s != "" && space(s[|s| - 1]) then TrimRight(s[..|s| - 1], space) else s
  }

  function Trim(s: string, space: char -> bool): string {
    TrimRight(TrimLeft(s, space), space)
  }

  predicate AllSpace(s: string, space: char -> bool) {
    forall c :: c in s ==> space(c)
  }

  /** Trimming takes off the white space at both ends and no more. */
  lemma TrimTakesEnds(s: string, space: char -> bool) returns (left: string, right: string)
    ensures s == left + Trim(s, space) + right && AllSpace(left, space) && AllSpace(right, space)
    ensures var t := Trim(s, space); t != "" ==> !space(t[0]) && !space(t[|t| - 1])
  {
    left := TrimLeftTakes(s, space);
    var rest := TrimLeft(s, space);
    right := TrimRightTakes(rest, space);
    assert s == left + rest && rest == Trim(s, space) + right;
  }

  lemma {:induction false} TrimLeftTakes(s: string, space: char -> bool) returns (left: string)
    ensures s == left + TrimLeft(s, space) && AllSpace(left, space)
    ensures var t := TrimLeft(s, space); t != "" ==> !space(t[0])
  {
    left := "";
    if s != "" && space(s[0]) {
      left := TrimLeftTakes(s[1..], space);
      left := [s[0]] + left;
    }
  }

  lemma {:induction false} TrimRightTakes(s: string, space: char -> bool) returns (right: string)
    ensures s == TrimRight(s, space) + right && AllSpace(right, space)
    ensures var t := TrimRight(s, space); t != "" ==> t[0] == s[0] && !space(t[|t| - 1])
  {
    right := "";
    if s != "" && space(s[|s| - 1]) {
      right := TrimRightTakes(s[..|s| - 1], space);
      right := right + [s[|s| - 1]];
    }
  }

  function NonEmptyTrimmed(parts: seq<string>, space: char -> bool): seq<string> {
    if parts == [] then []
    else NonEmptyTrimmed(parts[..|parts| - 1], space) +
         var part := Trim(parts[|parts| - 1], space); if part == "" then [] else [part]
  }

  function Parts(header: string, space: char -> bool): seq<string> {
    NonEmptyTrimmed(Split(header), space)
  }

  lemma {:induction false} TrimmedOfSum(a: seq<string>, b: seq<string>, space: char -> bool)
    ensures NonEmptyTrimmed(a + b, space) == NonEmptyTrimmed(a, space) + NonEmptyTrimmed(b, space)
  {
    if b == [] {
      assert a + b == a;
    } else {
      assert (a + b)[..|a + b| - 1] == a + b[..|b| - 1];
      TrimmedOfSum(a, b[..|b| - 1], space);
    }
  }

  /** Appending to a header appends its parts. */
  lemma PartsAppend(a: string, b: string, space: char -> bool)
    ensures Parts(a + "," + b, space) == Parts(a, space) + Parts(b, space)
  {
    SplitAtComma(a, b);
    TrimmedOfSum(Split(a), Split(b), space);
  }

  /** An address as nginx writes it: not empty, without commas or white space around it. */
  predicate Plain(c: string, space: char -> bool) {
    c != "" && ',' !in c && Trim(c, space) == c
  }

  lemma PartsOfPlain(c: string, space: char -> bool)
    requires Plain(c, space)
    ensures Parts(c, space) == [c]
    ensures space(' ') ==> Parts(" " + c, space) == [c]
  {
    NoCommaNoSplit(c);
    NoCommaNoSplit(" " + c);
    assert (" " + c)[1..] == c;
    assert NonEmptyTrimmed([], space) == [];
    assert [c][..0] == [] && [" " + c][..0] == [];
  }

  // ----- the portal -----

  /** The headers sent upstream: X-Forwarded-For and X-Real-IP. */
  datatype Headers = Headers(xff: Option<string>, xri: Option<string>)

  function Present(v: Option<string>): Option<string> {
    if v.Some? && v.value != "" then v else None
  }

  /** forwardedIpHeaders: only the last element of the incoming header goes on. */
  function ForwardedHeaders(w: World, incoming: Headers): Headers {
    var parts := if incoming.xff.Some? then Parts(incoming.xff.value, w.jsSpace) else [];
    var clientIp := if parts != [] then Some(parts[|parts| - 1]) else incoming.xri;
    Headers(Present(clientIp), Present(incoming.xri))
  }

  /** What goes upstream: X-Real-IP as it came, and the header's last element or, without elements, X-Real-IP too. */
  lemma ForwardedHeadersAre(w: World, incoming: Headers)
    ensures var upstream, none := ForwardedHeaders(w, incoming), incoming.xri == None || incoming.xri == Some("");
            && (if none then upstream.xri == None else upstream.xri == incoming.xri)
            && (if incoming.xff.Some? && Parts(incoming.xff.value, w.jsSpace) != [] then
                  var parts := Parts(incoming.xff.value, w.jsSpace);
                  upstream.xff == Some(parts[|parts| - 1])
                else upstream.xff == upstream.xri)
  {
    hide Parts;
    if incoming.xff.Some? && Parts(incoming.xff.value, w.jsSpace) != [] {
      LastPartIsNotEmpty(incoming.xff.value, w.jsSpace);
    }
  }

  lemma LastPartIsNotEmpty(header: string, space: char -> bool)
    requires Parts(header, space) != []
    ensures var parts := Parts(header, space); parts[|parts| - 1] != ""
  {
    hide Split, NonEmptyTrimmed;
    PartsAreNotEmpty(Split(header), space);
    var parts := Parts(header, space);
    assert parts[|parts| - 1] in parts;
  }

  /** $proxy_add_x_forwarded_for: the address nginx sees goes to the end of whatever the client sent. */
  function NginxAppends(sent: Option<string>, c: string): string {
    if sent.Some? then sent.value + ", " + c else c
  }

  // ----- the backend -----

  predicate AllHops(w: World, parts: seq<string>) {
    forall i :: 0 <= i < |parts| ==> w.hop(parts[i])
  }

  /** The rightmost part that is not a proxy, or the leftmost part when all are. */
  function Client(w: World, parts: seq<string>): string
    requires parts != []
  {
    if w.hop(parts[|parts| - 1]) then
      if |parts| > 1 && !AllHops(w, parts) then Client(w, parts[..|parts| - 1]) else parts[0]
    else parts[|parts| - 1]
  }

  function ParsedXff(w: World, xff: string): Option<string> {
    var parts := Parts(xff, w.pySpace);
    if parts == [] then None else Some(Client(w, parts))
  }

  method ParseXff(w: World, xff: string) returns (client: Option<string>)
    ensures client == ParsedXff(w, xff)
  {
    var parts := Parts(xff, w.pySpace);
    if parts == [] {
      return None;
    }
    var i := |parts|;
    while i > 0
      invariant 0 <= i <= |parts|
      invariant AllHops(w, parts[i..])
    {
      if !w.hop(parts[i - 1]) {
        RightmostIsClient(w, parts[..i - 1], parts[i - 1], parts[i..]);
        assert parts[..i - 1] + [parts[i - 1]] + parts[i..] == parts;
        return Some(parts[i - 1]);
      }
      i := i - 1;
    }
    assert parts[0..] == parts;
    AllHopsMeansLeftmost(w, parts);
    return Some(parts[0]);
  }

  /** Whatever stands before it, the rightmost element that is not a proxy is the client. */
  lemma {:induction false} RightmostIsClient(w: World, before: seq<string>, x: string, suffix: seq<string>)
    requires !w.hop(x) && AllHops(w, suffix)
    ensures Client(w, before + [x] + suffix) == x
    decreases |suffix|
  {
    var parts := before + [x] + suffix;
    assert !w.hop(parts[|before|]);
    if suffix != [] {
      assert parts[|parts| - 1] == suffix[|suffix| - 1];
      assert parts[..|parts| - 1] == before + [x] + suffix[..|suffix| - 1];
      RightmostIsClient(w, before, x, suffix[..|suffix| - 1]);
    }
  }

  /** When every element is a proxy, the leftmost one is the client. */
  lemma AllHopsMeansLeftmost(w: World, parts: seq<string>)
    requires parts != [] && AllHops(w, parts)
    ensures Client(w, parts) == parts[0]
  {
  }

  /** What a client sends in front of a header with a non-proxy element has no effect on the parse. */
  lemma SentPrefixIsIgnored(w: World, sent: string, header: string)
    requires !AllHops(w, Parts(header, w.pySpace))
    ensures ParsedXff(w, sent + "," + header) == ParsedXff(w, header)
  {
    var parts := Parts(header, w.pySpace);
    PartsAppend(sent, header, w.pySpace);
    var i := LastNonHop(w, parts);
    var before := Parts(sent, w.pySpace);
    assert parts == parts[..i] + [parts[i]] + parts[i + 1..];
    assert before + parts == (before + parts[..i]) + [parts[i]] + parts[i + 1..];
    RightmostIsClient(w, parts[..i], parts[i], parts[i + 1..]);
    RightmostIsClient(w, before + parts[..i], parts[i], parts[i + 1..]);
  }

  /** Only when every element after it is a proxy does the sent part decide. */
  lemma SentPrefixDecidesOnlyBehindProxies(w: World, sent: string, header: string)
    requires AllHops(w, Parts(header, w.pySpace)) && Parts(sent, w.pySpace) != []
    ensures ParsedXff(w, sent + "," + header) == ParsedXff(w, sent)
  {
    var before, parts := Parts(sent, w.pySpace), Parts(header, w.pySpace);
    PartsAppend(sent, header, w.pySpace);
    if AllHops(w, before) {
      AllHopsMeansLeftmost(w, before);
      AllHopsMeansLeftmost(w, before + parts);
    } else {
      var i := LastNonHop(w, before);
      assert before == before[..i] + [before[i]] + before[i + 1..];
      assert before + parts == before[..i] + [before[i]] + (before[i + 1..] + parts);
      RightmostIsClient(w, before[..i], before[i], before[i + 1..]);
      RightmostIsClient(w, before[..i], before[i], before[i + 1..] + parts);
    }
  }

  lemma {:induction false} LastNonHop(w: World, parts: seq<string>) returns (i: nat)
    requires !AllHops(w, parts)
    ensures i < |parts| && !w.hop(parts[i]) && AllHops(w, parts[i + 1..])
  {
    i := |parts| - 1;
    if w.hop(parts[i]) {
      i := LastNonHop(w, parts[..|parts| - 1]);
    }
  }

  // ----- normalisation and the whole chain -----

  function Before(s: string, stop: char): string {
    if s == "" || s[0] == stop then "" else [s[0]] + Before(s[1..], stop)
  }

  function CountOf(s: string, c: char): nat {
    if s == "" then 0 else (if s[0] == c then 1 else 0) + CountOf(s[1..], c)
  }

  /** _normalize: drop a zone and an IPv4 port, then use the canonical form if the rest is an address. */
  function Normalize(w: World, s: string): string {
    var unzoned := if '%' in s then Before(s, '%') else s;
    var bare := if CountOf(unzoned, ':') == 1 then Before(unzoned, ':') else unzoned;
    match w.canonical(bare)
    case Some(text) => text
    case None => bare
  }

  // ----- what normalising does to the forms an address comes in -----

  /** Text that is an address as it stands: no zone, and not taken for an address with a port. */
  predicate Simple(a: string) {
    '%' !in a && CountOf(a, ':') != 1
  }

  /** The text itself, or with a zone after it. */
  ghost predicate WithZone(s: string, t: string) {
    s == t || exists zone :: s == t + "%" + zone
  }

  predicate IsPort(port: string) {
    ':' !in port && '%' !in port
  }

  /** How a text stands for the address a: as it is or, for one without colons, with a port; a zone may follow. */
  ghost predicate StandsFor(s: string, a: string) {
    WithZone(s, a) || (':' !in a && exists port :: IsPort(port) && WithZone(s, a + ":" + port))
  }

  lemma {:induction false} BeforeStops(a: string, stop: char, rest: string)
    requires stop !in a
    ensures Before(a + [stop] + rest, stop) == a
  {
    var s := a + [stop] + rest;
    if a != "" {
      assert s[1..] == a[1..] + [stop] + rest;
      BeforeStops(a[1..], stop, rest);
      assert [a[0]] + a[1..] == a;
    }
  }

  lemma {:induction false} CountAdds(a: string, b: string, c: char)
    ensures CountOf(a + b, c) == CountOf(a, c) + CountOf(b, c)
    ensures c !in a <==> CountOf(a, c) == 0
  {
    if a == "" {
      assert a + b == b;
    } else {
      assert (a + b)[1..] == a[1..] + b;
      CountAdds(a[1..], b, c);
    }
  }

  /** A text that stands for an address becomes its canonical form, or the bare text where there is none. */
  lemma NormalizeFinds(w: World, s: string, a: string)
    requires Simple(a) && StandsFor(s, a)
    ensures Normalize(w, s) == if w.canonical(a).Some? then w.canonical(a).value else a
  {
    hide CountOf, Before;
    if WithZone(s, a) {
      ZoneIsDropped(s, a);
    } else {
      var port :| IsPort(port) && WithZone(s, a + ":" + port);
      ZoneIsDropped(s, a + ":" + port);
      PortIsDropped(a, port);
    }
  }

  lemma ZoneIsDropped(s: string, t: string)
    requires '%' !in t && WithZone(s, t)
    ensures (if '%' in s then Before(s, '%') else s) == t
  {
    if s != t {
      var zone :| s == t + "%" + zone;
      BeforeStops(t, '%', zone);
      assert s[|t|] == '%';
    }
  }

  lemma PortIsDropped(a: string, port: string)
    requires ':' !in a && ':' !in port
    ensures CountOf(a + ":" + port, ':') == 1 && Before(a + ":" + port, ':') == a
  {
    hide CountOf, Before;
    assert a + ":" + port == a + (":" + port);
    CountAdds(a, ":" + port, ':');
    CountAdds(":", port, ':');
    CountAdds(port, "", ':');
    OneColon();
    BeforeStops(a, ':', port);
  }

  lemma OneColon()
    ensures CountOf(":", ':') == 1
  {
    assert ":"[1..] == "";
  }

  /** Every text stands for some such address. */
  lemma EveryTextStandsForOne(s: string) returns (a: string)
    ensures Simple(a) && StandsFor(s, a)
  {
    hide CountOf, Before;
    var t, zone := CutAt(s, '%');
    assert WithZone(s, t);
    a := t;
    if CountOf(t, ':') == 1 {
      var port;
      CountAdds(t, "", ':');
      a, port := CutAt(t, ':');
      CountAdds(a, "", ':');
      assert t == a + ":" + port;
      assert t == a + (":" + port);
      CountAdds(a, ":" + port, ':');
      CountAdds(":", port, ':');
      CountAdds(port, "", ':');
      OneColon();
      assert forall c :: c in port ==> c in t;
      assert IsPort(port);
    }
  }

  lemma {:induction false} CutAt(s: string, stop: char) returns (head: string, tail: string)
    ensures stop !in head && forall c :: c in head ==> c in s
    ensures if stop in s then s == head + [stop] + tail else s == head
  {
    head, tail := "", "";
    if s != "" {
      if s[0] == stop {
        tail := s[1..];
        assert s == head + [stop] + tail;
      } else {
        head, tail := CutAt(s[1..], stop);
        head := [s[0]] + head;
        assert s == [s[0]] + s[1..];
      }
    }
  }

  /** t is the canonical form of the address that s stands for, or that address's bare text where it has none. */
  ghost predicate NormalForm(w: World, s: string, t: string) {
    exists a :: Simple(a) && StandsFor(s, a) && t == if w.canonical(a).Some? then w.canonical(a).value else a
  }

  lemma NormalizeIsNormalForm(w: World, s: string, t: string)
    ensures NormalForm(w, s, t) <==> t == Normalize(w, s)
  {
    hide Simple, StandsFor, Normalize;
    var a := EveryTextStandsForOne(s);
    NormalizeFinds(w, s, a);
    if NormalForm(w, s, t) {
      var b :| Simple(b) && StandsFor(s, b) && t == if w.canonical(b).Some? then w.canonical(b).value else b;
      NormalizeFinds(w, s, b);
    }
  }

  /** c stands in the header, is no proxy and has only proxies after it; or it is the first of proxies alone. */
  ghost predicate ForwardedFor(w: World, xff: string, c: string) {
    var parts := Parts(xff, w.pySpace);
    || (exists i :: 0 <= i < |parts| && parts[i] == c && !w.hop(c) && AllHops(w, parts[i + 1..]))
    || (AllHops(w, parts) && parts != [] && c == parts[0])
  }

  /** The backend's answer: of a trusted peer what its headers name, else the peer itself, in normal form. */
  ghost predicate Answers(w: World, peer: Option<string>, headers: Headers, ip: Option<string>) {
    if peer == None || peer == Some("") then ip == None
    else
      && ip.Some?
      && exists own ::
        && NormalForm(w, peer.value, own)
        && if own == "" || !w.trusted(own) then ip.value == own
           else if headers.xff.Some? && Parts(headers.xff.value, w.pySpace) != [] then
             exists c :: ForwardedFor(w, headers.xff.value, c) && NormalForm(w, c, ip.value)
           else if headers.xri.Some? && headers.xri.value != "" then
             NormalForm(w, Trim(headers.xri.value, w.pySpace), ip.value)
           else ip.value == own
  }

  lemma ClientIpAnswers(w: World, peer: Option<string>, headers: Headers)
    ensures Answers(w, peer, headers, ClientIp(w, peer, headers))
  {
    hide NormalForm, Normalize, ForwardedFor, Trim, Parts, Client;
    if peer.Some? && peer.value != "" {
      var own := Normalize(w, peer.value);
      NormalizeIsNormalForm(w, peer.value, own);
      EmptyHasNoParts(w.pySpace);
      if headers.xff.Some? && Parts(headers.xff.value, w.pySpace) != [] {
        var c := ParsedXff(w, headers.xff.value).value;
        ClientIsForwardedFor(w, headers.xff.value);
        NormalizeIsNormalForm(w, c, Normalize(w, c));
      }
      if headers.xri.Some? {
        var x := Trim(headers.xri.value, w.pySpace);
        NormalizeIsNormalForm(w, x, Normalize(w, x));
      }
    }
  }

  lemma EmptyHasNoParts(space: char -> bool)
    ensures Parts("", space) == []
  {
    assert Split("") == [""] && NonEmptyTrimmed([], space) == [];
    assert [""][..0] == [];
  }

  lemma {:induction false} PartsAreNotEmpty(parts: seq<string>, space: char -> bool)
    ensures "" !in NonEmptyTrimmed(parts, space)
  {
    if parts != [] {
      PartsAreNotEmpty(parts[..|parts| - 1], space);
    }
  }

  lemma ClientIsForwardedFor(w: World, xff: string)
    requires Parts(xff, w.pySpace) != []
    ensures ForwardedFor(w, xff, Client(w, Parts(xff, w.pySpace))) && Client(w, Parts(xff, w.pySpace)) != ""
  {
    var parts := Parts(xff, w.pySpace);
    PartsAreNotEmpty(Split(xff), w.pySpace);
    if AllHops(w, parts) {
      AllHopsMeansLeftmost(w, parts);
    } else {
      var i := LastNonHop(w, parts);
      assert parts == parts[..i] + [parts[i]] + parts[i + 1..];
      RightmostIsClient(w, parts[..i], parts[i], parts[i + 1..]);
    }
  }

  method GetClientIp(w: World, peer: Option<string>, headers: Headers) returns (ip: Option<string>)
    ensures ip == ClientIp(w, peer, headers)
    ensures Answers(w, peer, headers, ip)
  {
    hide Answers, Normalize;
    ClientIpAnswers(w, peer, headers);
    var normalized := if peer.Some? && peer.value != "" then Some(Normalize(w, peer.value)) else None;
    if normalized.Some? && normalized.value != "" && w.trusted(normalized.value) {
      if headers.xff.Some? && headers.xff.value != "" {
        var client := ParseXff(w, headers.xff.value);
        if client.Some? && client.value != "" {
          return Some(Normalize(w, client.value));
        }
      }
      if headers.xri.Some? && headers.xri.value != "" {
        return Some(Normalize(w, Trim(headers.xri.value, w.pySpace)));
      }
    }
    return normalized;
  }

  predicate TrustedPeer(w: World, peer: Option<string>) {
    peer.Some? && peer.value != "" && Normalize(w, peer.value) != "" && w.trusted(Normalize(w, peer.value))
  }

  function ClientIp(w: World, peer: Option<string>, headers: Headers): Option<string> {
    var own := if peer.Some? && peer.value != "" then Some(Normalize(w, peer.value)) else None;
    if !TrustedPeer(w, peer) then own
    else
      var client := if Present(headers.xff).Some? then ParsedXff(w, headers.xff.value) else None;
      if Present(client).Some? then Some(Normalize(w, client.value))
      else if Present(headers.xri).Some? then Some(Normalize(w, Trim(headers.xri.value, w.pySpace)))
      else own
  }

  /**
   * Whatever the client sends, if nginx appends the address it sees and the portal is a trusted peer,
   * the backend's answer is that address: proxy or not, the part sent in front never matters.
   */
  lemma NginxAddressArrives(w: World, sent: Option<string>, c: string, xri: Option<string>, peer: Option<string>)
    requires Plain(c, w.jsSpace) && Plain(c, w.pySpace) && w.jsSpace(' ') && TrustedPeer(w, peer)
    ensures var upstream := ForwardedHeaders(w, Headers(Some(NginxAppends(sent, c)), xri));
            && upstream.xff == Some(c)
            && ClientIp(w, peer, upstream).Some? && NormalForm(w, c, ClientIp(w, peer, upstream).value)
            && (Simple(c) && w.canonical(c).Some? ==> ClientIp(w, peer, upstream) == w.canonical(c))
  {
    hide Split, Trim, Normalize, NormalForm;
    NormalizeIsNormalForm(w, c, Normalize(w, c));
    if Simple(c) {
      NormalizeFinds(w, c, c);
    }
    PartsOfPlain(c, w.jsSpace);
    PartsOfPlain(c, w.pySpace);
    if sent.Some? {
      assert NginxAppends(sent, c) == sent.value + "," + (" " + c);
      PartsAppend(sent.value, " " + c, w.jsSpace);
    }
  }

  /** Headers from a peer that is not trusted are never looked at. */
  lemma UntrustedHeadersAreIgnored(w: World, peer: Option<string>, a: Headers, b: Headers)
    requires !TrustedPeer(w, peer)
    ensures ClientIp(w, peer, a) == ClientIp(w, peer, b)
    ensures ClientIp(w, peer, a).Some? <==> peer.Some? && peer.value != ""
  {
  }
}
