/**
 Printing a `Set-Cookie` value and reading one cookie out of a `Cookie` header.
 */
module Cookies {
  import opened Wrappers
  import opened Texts

  /** `encodeURIComponent` and `decodeURIComponent`; the latter rejects malformed input. */
  datatype Percent = Percent(encode: string -> string, decode: string -> Option<string>)

  /** Decoding undoes encoding, and the output holds nothing the cookie grammar uses. */
  ghost predicate Sound(p: Percent) {
    forall v :: p.decode(p.encode(v)) == Some(v)
                && (forall c :: c in p.encode(v) ==> c != ';' && c != '=' && !IsSpace(c))
  }

  /** What `String.prototype.trim` strips. */
  predicate IsSpace(c: char) {
    || '\t' <= c <= '\r' || c == ' ' || c == '\U{00A0}' || c == '\U{1680}'
    || '\U{2000}' <= c <= '\U{200A}' || c == '\U{2028}' || c == '\U{2029}'
    || c == '\U{202F}' || c == '\U{205F}' || c == '\U{3000}' || c == '\U{FEFF}'
  }

  function TrimStart(s: string): string {
    if s != "" && IsSpace(s[0]) then TrimStart(s[1..]) else s
  }

  function TrimEnd(s: string): string {
    if s != "" && IsSpace(s[|s| - 1]) then TrimEnd(s[..|s| - 1]) else s
  }

  function Trim(s: string): string {
    TrimEnd(TrimStart(s))
  }

  /** `indexOf('=')`. */
  function IndexOfEq(s: string): (r: Option<nat>)
    ensures r.Some? ==> r.value < |s| && s[r.value] == '=' && '=' !in s[..r.value]
    ensures r.None? ==> '=' !in s
  {
    if s == "" then None
    else if s[0] == '=' then Some(0)
    else match IndexOfEq(s[1..])
      case None => None
      case Some(k) => assert s[..k + 1] == [s[0]] + s[1..][..k]; Some(k + 1)
  }

  function DecodeOrRaw(p: Percent, raw: string): string {
    match p.decode(raw)
    case Some(v) => v
    case None => raw
  }

  /** The value of one `key=value` pair if its key is `name`. */
  function Match(p: Percent, pair: string, name: string): Option<string> {
    match IndexOfEq(pair)
    case None => None
    case Some(eq) => if Trim(pair[..eq]) == name then Some(DecodeOrRaw(p, Trim(pair[eq + 1..]))) else None
  }

  function FirstMatch(p: Percent, pairs: seq<string>, name: string): Option<string> {
    if pairs == [] then None
    else if Match(p, pairs[0], name).Some? then Match(p, pairs[0], name)
    else FirstMatch(p, pairs[1..], name)
  }

  function Parse(p: Percent, header: Option<string>, name: string): Option<string> {
    if header.None? || header.value == "" then None else FirstMatch(p, Split(header.value, ';'), name)
  }

  lemma {:induction false} FirstMatchFrom(p: Percent, pairs: seq<string>, name: string, k: nat)
    requires k <= |pairs| && forall i :: 0 <= i < k ==> Match(p, pairs[i], name).None?
    ensures FirstMatch(p, pairs, name) == FirstMatch(p, pairs[k..], name)
  {
    if k > 0 {
      FirstMatchFrom(p, pairs[1..], name, k - 1);
      assert pairs[1..][k - 1..] == pairs[k..];
    }
  }

  /** `parseCookie`: the loop over the pairs. */
  method ParseCookie(p: Percent, header: Option<string>, name: string) returns (value: Option<string>)
    ensures value == Parse(p, header, name)
  {
    if header.None? || header.value == "" {
      return None;
    }
    var pairs := Split(header.value, ';');
    for i := 0 to |pairs|
      invariant forall k :: 0 <= k < i ==> Match(p, pairs[k], name).None?
    {
      var eq := IndexOfEq(pairs[i]);
      if eq.None? {
        continue;
      }
      var key := Trim(pairs[i][..eq.value]);
      if key != name {
        continue;
      }
      FirstMatchFrom(p, pairs, name, i);
      return Some(DecodeOrRaw(p, Trim(pairs[i][eq.value + 1..])));
    }
    FirstMatchFrom(p, pairs, name, |pairs|);
    value := None;
  }

  // ---------- round trip ----------

  /** Section 4.1.1 of RFC 6265 allows fewer names still. */
  predicate LegalName(name: string) {
    name != "" && forall c :: c in name ==> c != ';' && c != '=' && !IsSpace(c)
  }

  datatype Cookie = Cookie(name: string, value: string)

  function Pair(p: Percent, c: Cookie): string {
    c.name + ['='] + p.encode(c.value)
  }

  /** The pairs of a header; all but the first carry the blank that follows the semicolon. */
  function Spaced(pairs: seq<string>): (r: seq<string>)
    ensures |r| == |pairs|
  {
    if pairs == [] then [] else Spaced(pairs[..|pairs| - 1]) + [if |pairs| == 1 then pairs[0] else [' '] + pairs[|pairs| - 1]]
  }

  /** What a browser sends back: section 4.2.1 of RFC 6265. */
  function Header(p: Percent, cookies: seq<Cookie>): string {
    Join(Spaced(Pairs(p, cookies)), ';')
  }

  function Pairs(p: Percent, cookies: seq<Cookie>): (r: seq<string>)
    ensures |r| == |cookies|
    ensures forall i :: 0 <= i < |cookies| ==> r[i] == Pair(p, cookies[i])
  {
    seq(|cookies|, i requires 0 <= i < |cookies| => Pair(p, cookies[i]))
  }

  /** The value of the first cookie of that name. */
  function Lookup(cookies: seq<Cookie>, name: string): Option<string> {
    if cookies == [] then None
    else if cookies[0].name == name then Some(cookies[0].value)
    else Lookup(cookies[1..], name)
  }

  lemma TrimKeeps(s: string)
    requires forall c :: c in s ==> !IsSpace(c)
    ensures Trim(s) == s && Trim([' '] + s) == s
  {
    assert ([' '] + s)[1..] == s;
    assert TrimStart([' '] + s) == TrimStart(s);
  }

  lemma EqSplits(name: string, rest: string)
    requires '=' !in name
    ensures IndexOfEq(name + ['='] + rest) == Some(|name|)
  {
    var s := name + ['='] + rest;
    assert s[|name|] == '=' && s[..|name|] == name;
    forall i | 0 <= i <= |name| ensures s[i] == '=' <==> i == |name| {
      assert i < |name| ==> s[i] == name[i] && name[i] in name;
    }
  }

  /** One pair, with or without the blank before it. */
  lemma PlainMatches(p: Percent, key: string, c: Cookie, name: string)
    requires Sound(p) && (key == c.name || key == [' '] + c.name) && LegalName(c.name)
    ensures Match(p, key + ['='] + p.encode(c.value), name) == if c.name == name then Some(c.value) else None
  {
    var v := p.encode(c.value);
    assert p.decode(v) == Some(c.value);
    EqSplits(key, v);
    var pair := key + ['='] + v;
    assert pair[..|key|] == key && pair[|key| + 1..] == v;
    TrimKeeps(c.name);
    TrimKeeps(v);
  }

  lemma PairMatches(p: Percent, c: Cookie, name: string)
    requires Sound(p) && LegalName(c.name)
    ensures Match(p, Pair(p, c), name) == if c.name == name then Some(c.value) else None
    ensures Match(p, [' '] + Pair(p, c), name) == if c.name == name then Some(c.value) else None
    ensures ';' !in Pair(p, c)
  {
    PlainMatches(p, c.name, c, name);
    PlainMatches(p, [' '] + c.name, c, name);
    assert [' '] + Pair(p, c) == [' '] + c.name + ['='] + p.encode(c.value);
    assert p.decode(p.encode(c.value)) == Some(c.value);
  }

  lemma {:induction false} SpacedAt(pairs: seq<string>)
    ensures forall i :: 0 <= i < |pairs| ==> Spaced(pairs)[i] == if i == 0 then pairs[0] else [' '] + pairs[i]
  {
    if pairs != [] {
      SpacedAt(pairs[..|pairs| - 1]);
    }
  }

  /** A list of pairs that look up as the cookies do. */
  lemma {:induction false} FirstMatchLooksUp(p: Percent, cookies: seq<Cookie>, pairs: seq<string>, name: string)
    requires |pairs| == |cookies|
    requires forall i :: 0 <= i < |cookies| ==>
               Match(p, pairs[i], name) == if cookies[i].name == name then Some(cookies[i].value) else None
    ensures FirstMatch(p, pairs, name) == Lookup(cookies, name)
  {
    if cookies != [] {
      assert forall i :: 0 <= i < |cookies[1..]| ==> cookies[1..][i] == cookies[i + 1] && pairs[1..][i] == pairs[i + 1];
      FirstMatchLooksUp(p, cookies[1..], pairs[1..], name);
    }
  }

  /**
   A header made of cookies with legal names yields, for every name asked, the
   value of its first cookie, or nothing if it has none.
   */
  lemma CookieRoundTrip(p: Percent, cookies: seq<Cookie>, name: string)
    requires Sound(p) && forall c :: c in cookies ==> LegalName(c.name)
    ensures Parse(p, Some(Header(p, cookies)), name) == Lookup(cookies, name)
  {
    var parts := Spaced(Pairs(p, cookies));
    SpacedAt(Pairs(p, cookies));
    if cookies != [] {
      forall i | 0 <= i < |cookies|
        ensures Match(p, parts[i], name) == if cookies[i].name == name then Some(cookies[i].value) else None
        ensures ';' !in parts[i]
      {
        PairMatches(p, cookies[i], name);
      }
      SplitUndoesJoin(parts, ';');
      FirstMatchLooksUp(p, cookies, parts, name);
      NotEmpty(parts);
    }
  }

  lemma NotEmpty(parts: seq<string>)
    requires parts != [] && parts[0] != ""
    ensures Join(parts, ';') != ""
  {
  }

  /** A value that is no percent-encoding is handed out as it stands, without the blanks around it. */
  lemma MalformedComesRaw(p: Percent, name: string, raw: string)
    requires LegalName(name) && ';' !in raw && forall c :: c in raw ==> !IsSpace(c)
    ensures Parse(p, Some(name + ['='] + raw), name) == Some(if p.decode(raw).Some? then p.decode(raw).value else raw)
    ensures Parse(p, Some(name + ['='] + ([' '] + raw)), name) == Some(if p.decode(raw).Some? then p.decode(raw).value else raw)
  {
    RawMatches(p, name, raw, raw);
    RawMatches(p, name, [' '] + raw, raw);
  }

  lemma RawMatches(p: Percent, name: string, value: string, raw: string)
    requires LegalName(name) && ';' !in value && Trim(name) == name && Trim(value) == raw
    ensures Parse(p, Some(name + ['='] + value), name) == Some(if p.decode(raw).Some? then p.decode(raw).value else raw)
  {
    var pair := name + ['='] + value;
    EqSplits(name, value);
    assert pair[..|name|] == name && pair[|name| + 1..] == value;
    SplitFirst(pair, "", ';');
    assert FirstMatch(p, [pair], name) == Match(p, pair, name);
  }

  // ---------- Set-Cookie ----------

  datatype SameSite = Lax | Strict

  datatype SerializeOptions = SerializeOptions(
    maxAge: Option<int>,
    httpOnly: Option<bool>,
    sameSite: Option<SameSite>,
    path: Option<string>,
    secure: Option<bool>,
    domain: Option<string>,
    hostPrefix: Option<bool>)

  datatype CookieError = DomainForbidden

  function Or<T>(o: Option<T>, default: T): T {
    if o.Some? then o.value else default
  }

  function Digits(n: nat): (r: string)
    ensures forall c :: c in r ==> '0' <= c <= '9'
  {
    var last := [(n % 10) as char + '0'];
    if n < 10 then last else Digits(n / 10) + last
  }

  function Decimal(n: int): string {
    if n < 0 then "-" + Digits(-n) else Digits(n)
  }

  /** Which hosts and paths the cookie is for. */
  function Scope(opts: SerializeOptions): seq<string> {
    if Or(opts.hostPrefix, false) then ["Path=/"]
    else ["Path=" + Or(opts.path, "/")] + if opts.domain.Some? then ["Domain=" + opts.domain.value] else []
  }

  function Flags(opts: SerializeOptions): seq<string> {
    ["SameSite=" + (if Or(opts.sameSite, Strict).Lax? then "Lax" else "Strict")]
    + (if Or(opts.httpOnly, true) then ["HttpOnly"] else [])
    + (if Or(opts.hostPrefix, false) || Or(opts.secure, true) then ["Secure"] else [])
  }

  function Expiry(opts: SerializeOptions): seq<string> {
    if opts.maxAge.Some? then ["Max-Age=" + Decimal(opts.maxAge.value)] else []
  }

  function Attributes(opts: SerializeOptions): seq<string> {
    Scope(opts) + Flags(opts) + Expiry(opts)
  }

  function Serialize(p: Percent, c: Cookie, opts: SerializeOptions): Result<string, CookieError> {
    if Or(opts.hostPrefix, false) && opts.domain.Some? then Err(DomainForbidden)
    else Ok(Join(Spaced([Pair(p, c)] + Attributes(opts)), ';'))
  }

  method PushScope(opts: SerializeOptions) returns (parts: seq<string>)
    ensures parts == Scope(opts)
  {
    var hostPrefix := Or(opts.hostPrefix, false);
    var path := if hostPrefix then "/" else Or(opts.path, "/");
    parts := ["Path=" + path];
    assert "Path=" + "/" == "Path=/";
    if !hostPrefix && opts.domain.Some? {
      parts := parts + ["Domain=" + opts.domain.value];
    }
  }

  method PushFlags(opts: SerializeOptions) returns (parts: seq<string>)
    ensures parts == Flags(opts)
  {
    var secure := if Or(opts.hostPrefix, false) then true else Or(opts.secure, true);
    parts := ["SameSite=" + (if Or(opts.sameSite, Strict).Lax? then "Lax" else "Strict")];
    if Or(opts.httpOnly, true) {
      parts := parts + ["HttpOnly"];
    }
    if secure {
      parts := parts + ["Secure"];
    }
  }

  /** `serializeCookie`: parts pushed one by one, joined with `; `. */
  method SerializeCookie(p: Percent, c: Cookie, opts: SerializeOptions) returns (r: Result<string, CookieError>)
    ensures r == Serialize(p, c, opts)
  {
    if Or(opts.hostPrefix, false) && opts.domain.Some? {
      return Err(DomainForbidden);
    }
    var scope := PushScope(opts);
    var flags := PushFlags(opts);
    var parts := [Pair(p, c)] + (scope + flags);
    if opts.maxAge.Some? {
      parts := parts + ["Max-Age=" + Decimal(opts.maxAge.value)];
    }
    assert parts == [Pair(p, c)] + Attributes(opts);
    r := Ok(Join(Spaced(parts), ';'));
  }

  /** Neither path nor domain smuggles in another attribute. */
  predicate PlainOptions(opts: SerializeOptions) {
    (opts.path.Some? ==> ';' !in opts.path.value) && (opts.domain.Some? ==> ';' !in opts.domain.value)
  }

  lemma SpacedPlain(parts: seq<string>)
    requires forall s :: s in parts ==> ';' !in s
    ensures forall s :: s in Spaced(parts) ==> ';' !in s
  {
    SpacedAt(parts);
    forall i | 0 <= i < |parts| ensures ';' !in Spaced(parts)[i] {
      assert parts[i] in parts;
    }
  }

  /** The segments of the printed value are the pair and the attributes, in order. */
  lemma SetCookieSegments(p: Percent, c: Cookie, opts: SerializeOptions)
    requires Sound(p) && LegalName(c.name) && PlainOptions(opts)
    requires Serialize(p, c, opts).Ok?
    ensures Split(Serialize(p, c, opts).value, ';') == Spaced([Pair(p, c)] + Attributes(opts))
  {
    PairMatches(p, c, c.name);
    AttributesPlain(opts);
    SpacedPlain([Pair(p, c)] + Attributes(opts));
    SplitUndoesJoin(Spaced([Pair(p, c)] + Attributes(opts)), ';');
  }

  lemma AttributesPlain(opts: SerializeOptions)
    requires PlainOptions(opts)
    ensures forall s :: s in Attributes(opts) ==> ';' !in s
  {
    assert forall s :: s in Scope(opts) ==> ';' !in s;
    assert forall s :: s in Flags(opts) ==> ';' !in s;
    if opts.maxAge.Some? {
      assert ';' !in Decimal(opts.maxAge.value);
    }
  }

  /** A printed cookie reads back as it was printed. */
  lemma SetCookieRoundTrip(p: Percent, c: Cookie, opts: SerializeOptions)
    requires Sound(p) && LegalName(c.name) && PlainOptions(opts) && Serialize(p, c, opts).Ok?
    ensures Parse(p, Some(Serialize(p, c, opts).value), c.name) == Some(c.value)
  {
    var all := [Pair(p, c)] + Attributes(opts);
    SetCookieSegments(p, c, opts);
    SpacedAt(all);
    PairMatches(p, c, c.name);
    NotEmpty(Spaced(all));
  }

  lemma HostAttributes(opts: SerializeOptions)
    requires Or(opts.hostPrefix, false)
    ensures Attributes(opts)[0] == "Path=/" && "Secure" in Attributes(opts)
    ensures forall s :: s in Attributes(opts) ==> s != "" && s[0] != 'D'
  {
    hide Decimal;
    assert "Secure" in Flags(opts);
    assert forall s :: s in Flags(opts) ==> s[0] == 'S' || s[0] == 'H';
    assert forall s :: s in Expiry(opts) ==> s[0] == 'M';
  }

  lemma SpacedHolds(parts: seq<string>, part: string)
    requires parts != [] && part in parts[1..]
    ensures [' '] + part in Spaced(parts)
  {
    SpacedAt(parts);
    var k :| 0 <= k < |parts[1..]| && parts[1..][k] == part;
    assert Spaced(parts)[k + 1] == [' '] + part;
  }

  lemma SpacedStarts(parts: seq<string>, prefix: string)
    requires prefix != "" && parts != []
    requires forall s :: s in parts[1..] ==> s != "" && s[0] != prefix[0]
    ensures forall i :: 1 <= i < |parts| ==> !([' '] + prefix <= Spaced(parts)[i])
  {
    SpacedAt(parts);
    forall i | 1 <= i < |parts| ensures !([' '] + prefix <= Spaced(parts)[i]) {
      assert parts[1..][i - 1] in parts[1..];
      assert Spaced(parts)[i][1] != prefix[0];
      assert ([' '] + prefix)[1] == prefix[0];
    }
  }

  /** A `__Host-` cookie is refused, or comes out secure, for the whole host and for no other. */
  lemma HostPrefixIsKept(p: Percent, c: Cookie, opts: SerializeOptions)
    requires Sound(p) && LegalName(c.name) && PlainOptions(opts) && Or(opts.hostPrefix, false)
    ensures Serialize(p, c, opts).Err? <==> opts.domain.Some?
    ensures Serialize(p, c, opts).Ok? ==>
              var segments := Split(Serialize(p, c, opts).value, ';');
              && [' '] + "Secure" in segments && [' '] + "Path=/" in segments
              && forall i :: 1 <= i < |segments| ==> !([' '] + "Domain=" <= segments[i])
  {
    if opts.domain.None? {
      var all := [Pair(p, c)] + Attributes(opts);
      SetCookieSegments(p, c, opts);
      HostAttributes(opts);
      assert all[1..] == Attributes(opts);
      SpacedHolds(all, "Secure");
      SpacedHolds(all, "Path=/");
      SpacedStarts(all, "Domain=");
      SpacedAt(all);
    }
  }

  // ---------- the attributes of a printed cookie ----------

  /** The number that a string of digits stands for. */
  function ReadDigits(s: string): nat {
    if s == "" then 0
    else ReadDigits(s[..|s| - 1]) * 10 + if s[|s| - 1] < '0' then 0 else s[|s| - 1] as int - '0' as int
  }

  /** Numbers are printed as they are read. */
  lemma {:induction false} DigitsReadBack(n: nat)
    ensures ReadDigits(Digits(n)) == n && Digits(n) != ""
  {
    if n >= 10 {
      DigitsReadBack(n / 10);
      assert Digits(n)[..|Digits(n)| - 1] == Digits(n / 10);
    }
  }

  /** Only the pair comes without the blank. */
  lemma SegmentIff(p: Percent, c: Cookie, opts: SerializeOptions, attribute: string)
    requires Sound(p) && LegalName(c.name) && PlainOptions(opts) && Serialize(p, c, opts).Ok?
    ensures [' '] + attribute in Split(Serialize(p, c, opts).value, ';') <==> attribute in Attributes(opts)
  {
    hide Attributes, Serialize;
    var all := [Pair(p, c)] + Attributes(opts);
    SetCookieSegments(p, c, opts);
    SpacedAt(all);
    assert all[1..] == Attributes(opts);
    if attribute in Attributes(opts) {
      SpacedHolds(all, attribute);
    }
    if k :| 0 <= k < |all| && Spaced(all)[k] == [' '] + attribute {
      assert Pair(p, c)[0] == c.name[0] && c.name[0] in c.name;
      assert k > 0;
      assert ([' '] + all[k])[1..] == all[k] && ([' '] + attribute)[1..] == attribute;
      assert Attributes(opts)[k - 1] == attribute;
    }
  }

  lemma SameSiteIff(opts: SerializeOptions)
    ensures "SameSite=Lax" in Attributes(opts) <==> opts.sameSite == Some(Lax)
    ensures "SameSite=Strict" in Attributes(opts) <==> opts.sameSite != Some(Lax)
  {
    hide Decimal, Scope, Expiry;
    StartingLetters(opts);
    assert "SameSite=Lax"[9] != "SameSite=Strict"[9];
    assert "SameSite=Lax"[1] != "Secure"[1] && "SameSite=Strict"[1] != "Secure"[1];
    assert "SameSite=" + "Lax" == "SameSite=Lax" && "SameSite=" + "Strict" == "SameSite=Strict";
    assert Flags(opts)[0] in Attributes(opts);
    assert forall s :: s in Flags(opts) ==> s == Flags(opts)[0] || s == "HttpOnly" || s == "Secure";
  }

  lemma HttpOnlyIff(opts: SerializeOptions)
    ensures "HttpOnly" in Attributes(opts) <==> opts.httpOnly != Some(false)
    ensures "Secure" in Attributes(opts) <==> opts.hostPrefix == Some(true) || opts.secure != Some(false)
  {
    hide Decimal, Scope, Expiry;
    StartingLetters(opts);
    assert "SameSite=Lax"[1] != "Secure"[1] && "SameSite=Strict"[1] != "Secure"[1];
    assert Or(opts.httpOnly, true) ==> "HttpOnly" in Flags(opts);
    assert forall s :: s in Flags(opts) && s[0] == 'H' ==> Or(opts.httpOnly, true);
    assert Or(opts.hostPrefix, false) || Or(opts.secure, true) ==> "Secure" in Flags(opts);
    assert forall s :: s in Flags(opts) && s == "Secure" ==> Or(opts.hostPrefix, false) || Or(opts.secure, true);
  }

  /** By its first letter an attribute tells what it is about. */
  lemma StartingLetters(opts: SerializeOptions)
    ensures forall s :: s in Scope(opts) ==> s != "" && (s[0] == 'P' || s[0] == 'D')
    ensures forall s :: s in Flags(opts) ==> s != "" && (s[0] == 'S' || s[0] == 'H')
    ensures forall s :: s in Expiry(opts) ==> s != "" && s[0] == 'M'
  {
    hide Decimal;
  }

  lemma ScopeIff(opts: SerializeOptions, path: string, domain: string)
    requires opts.hostPrefix == Some(true) ==> opts.domain.None?
    ensures "Path=" + path in Attributes(opts)
       <==> path == (if opts.hostPrefix == Some(true) || opts.path.None? then "/" else opts.path.value)
    ensures "Domain=" + domain in Attributes(opts) <==> opts.domain == Some(domain)
  {
    hide Decimal, Flags, Expiry;
    StartingLetters(opts);
    Cut("Path=", path);
    Cut("Domain=", domain);
    var here := if opts.hostPrefix == Some(true) || opts.path.None? then "/" else opts.path.value;
    Cut("Path=", here);
    assert "Path=" + "/" == "Path=/";
    assert Scope(opts)[0] == "Path=" + here && Scope(opts)[0] in Attributes(opts);
    if opts.domain.Some? {
      Cut("Domain=", opts.domain.value);
      assert Scope(opts)[1] == "Domain=" + opts.domain.value && Scope(opts)[1] in Attributes(opts);
    }
    assert forall s :: s in Scope(opts) && s[0] == 'P' ==> s == Scope(opts)[0];
    assert forall s :: s in Scope(opts) && s[0] == 'D' ==> opts.domain.Some? && s == "Domain=" + opts.domain.value;
  }

  lemma Cut(prefix: string, s: string)
    ensures (prefix + s)[|prefix|..] == s && (prefix != "" ==> (prefix + s)[0] == prefix[0])
  {
  }

  lemma MaxAgeIff(opts: SerializeOptions, seconds: nat)
    ensures "Max-Age=" + Digits(seconds) in Attributes(opts) <==> opts.maxAge == Some(seconds)
  {
    hide Scope, Flags;
    StartingLetters(opts);
    Cut("Max-Age=", Digits(seconds));
    DigitsReadBack(seconds);
    if opts.maxAge.Some? {
      Cut("Max-Age=", Decimal(opts.maxAge.value));
      assert Expiry(opts)[0] in Attributes(opts);
      if opts.maxAge.value >= 0 {
        DigitsReadBack(opts.maxAge.value);
      } else {
        assert Decimal(opts.maxAge.value)[0] == '-';
        assert Digits(seconds)[0] in Digits(seconds);
      }
    }
  }

  /**
   What a printed cookie says of itself, segment by segment: strict and hidden
   from scripts and over TLS only unless asked otherwise, for the path asked or
   for all, and for a domain or an age only if one was asked for.
   */
  lemma AttributesIff(p: Percent, c: Cookie, opts: SerializeOptions, path: string, domain: string, seconds: nat)
    requires Sound(p) && LegalName(c.name) && PlainOptions(opts) && Serialize(p, c, opts).Ok?
    ensures var segments := Split(Serialize(p, c, opts).value, ';');
            && (" SameSite=Lax" in segments <==> opts.sameSite == Some(Lax))
            && (" SameSite=Strict" in segments <==> opts.sameSite != Some(Lax))
            && (" HttpOnly" in segments <==> opts.httpOnly != Some(false))
            && (" Secure" in segments <==> opts.hostPrefix == Some(true) || opts.secure != Some(false))
            && ([' '] + ("Path=" + path) in segments <==>
                  path == (if opts.hostPrefix == Some(true) || opts.path.None? then "/" else opts.path.value))
            && ([' '] + ("Domain=" + domain) in segments <==> opts.domain == Some(domain))
            && ([' '] + ("Max-Age=" + Digits(seconds)) in segments <==> opts.maxAge == Some(seconds))
  {
    hide Attributes, Decimal, Digits, Split, Serialize;
    assert opts.hostPrefix == Some(true) ==> opts.domain.None? by { HostIsAlone(p, c, opts); }
    FlagSegments(p, c, opts);
    SegmentIff(p, c, opts, "Path=" + path);
    SegmentIff(p, c, opts, "Domain=" + domain);
    SegmentIff(p, c, opts, "Max-Age=" + Digits(seconds));
    ScopeIff(opts, path, domain);
    MaxAgeIff(opts, seconds);
  }

  lemma HostIsAlone(p: Percent, c: Cookie, opts: SerializeOptions)
    requires Serialize(p, c, opts).Ok?
    ensures opts.hostPrefix == Some(true) ==> opts.domain.None?
  {
  }

  lemma FlagSegments(p: Percent, c: Cookie, opts: SerializeOptions)
    requires Sound(p) && LegalName(c.name) && PlainOptions(opts) && Serialize(p, c, opts).Ok?
    ensures var segments := Split(Serialize(p, c, opts).value, ';');
            && (" SameSite=Lax" in segments <==> opts.sameSite == Some(Lax))
            && (" SameSite=Strict" in segments <==> opts.sameSite != Some(Lax))
            && (" HttpOnly" in segments <==> opts.httpOnly != Some(false))
            && (" Secure" in segments <==> opts.hostPrefix == Some(true) || opts.secure != Some(false))
  {
    hide Attributes, Split, Serialize;
    SegmentIff(p, c, opts, "SameSite=Lax");
    SegmentIff(p, c, opts, "SameSite=Strict");
    SegmentIff(p, c, opts, "HttpOnly");
    SegmentIff(p, c, opts, "Secure");
    assert [' '] + "SameSite=Lax" == " SameSite=Lax" && [' '] + "SameSite=Strict" == " SameSite=Strict";
    assert [' '] + "HttpOnly" == " HttpOnly" && [' '] + "Secure" == " Secure";
    SameSiteIff(opts);
    HttpOnlyIff(opts);
  }
}
