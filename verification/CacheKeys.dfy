/**
 * Cache keys: the framing of a key's fields, the resource's own (primary) key,
 * and the key of one variant of it.
 *
 * SHA-256 is a parameter. Nothing is assumed of it beyond the length of its
 * output; where a collision would matter, the statement names it.
 */
module CacheKeys {
  import opened Text
  import opened AcceptEncoding

  const VARIANT_DIGEST_LENGTH: nat := 16
  const KEY_PREFIX := "kp:c:"
  const KEY_VERSION := "2"
  const ACCEPT_ENCODING := "accept-encoding"

  /** A hash of a byte string, in hexadecimal. */
  type Digest = d: string | |d| == 64 && ':' !in d
    witness seq(64, _ => '0')
  type Hash = string -> Digest

  /** The parts of a request a key is computed from; header names are lower case, values already joined. */
  datatype Request = Request(
    service: string,
    rollout: string,
    tls: bool,
    host: string,
    path: string,
    query: string,
    headers: map<string, string>,
    accept: Accept,
    cookies: map<string, string>
  )

  datatype KeyOptions = KeyOptions(varyHeaders: seq<string>, varyCookies: seq<string>)

  // ---- Framing ----

  function Power(k: nat): nat {
    if k == 0 then 1 else 256 * Power(k - 1)
  }

  /** The low k bytes of a number, most significant first. */
  function BigEndian(n: nat, k: nat): (bytes: string)
    ensures |bytes| == k
  {
    if k == 0 then "" else BigEndian(n / 256, k - 1) + [(n % 256) as char]
  }

  lemma {:induction false} BigEndianInjective(m: nat, n: nat, k: nat)
    requires m < Power(k) && n < Power(k)
    requires BigEndian(m, k) == BigEndian(n, k)
    ensures m == n
  {
    if k > 0 {
      var a, b := BigEndian(m, k), BigEndian(n, k);
      assert BigEndian(m / 256, k - 1) == a[..k - 1] && BigEndian(n / 256, k - 1) == b[..k - 1];
      BigEndianInjective(m / 256, n / 256, k - 1);
      assert a[k - 1] == (m % 256) as char && b[k - 1] == (n % 256) as char;
    }
  }

  /** A length prefix, then the value. */
  function Frame(value: string): string {
    BigEndian(|value|, 8) + value
  }

  function FrameAll(fields: seq<string>): string {
    if fields == [] then "" else Frame(fields[0]) + FrameAll(fields[1..])
  }

  /** Field lengths are 64-bit. */
  predicate Addressable(fields: seq<string>) {
    forall f :: f in fields ==> |f| < Power(8)
  }

  lemma FrameHead(a: string, restA: string, b: string, restB: string)
    requires |a| < Power(8) && |b| < Power(8) && Frame(a) + restA == Frame(b) + restB
    ensures a == b && restA == restB
  {
    var whole := Frame(a) + restA;
    assert BigEndian(|a|, 8) == whole[..8];
    assert BigEndian(|b|, 8) == (Frame(b) + restB)[..8];
    BigEndianInjective(|a|, |b|, 8);
    assert a == whole[8..8 + |a|] && b == (Frame(b) + restB)[8..8 + |b|];
    assert restA == whole[8 + |a|..] && restB == (Frame(b) + restB)[8 + |b|..];
  }

  /** Different field lists never frame to the same bytes. */
  lemma {:induction false} FramingInjective(a: seq<string>, b: seq<string>)
    requires Addressable(a) && Addressable(b)
    requires FrameAll(a) == FrameAll(b)
    ensures a == b
  {
    if a != [] && b != [] {
      assert a[0] in a && b[0] in b;
      FrameHead(a[0], FrameAll(a[1..]), b[0], FrameAll(b[1..]));
      FramingInjective(a[1..], b[1..]);
      assert a == [a[0]] + a[1..] && b == [b[0]] + b[1..];
    }
  }

  lemma {:induction false} FrameAllAppend(fields: seq<string>, last: string)
    ensures FrameAll(fields + [last]) == FrameAll(fields) + Frame(last)
  {
    if fields == [] {
      assert [last][1..] == [];
    } else {
      assert (fields + [last])[1..] == fields[1..] + [last];
      FrameAllAppend(fields[1..], last);
    }
  }

  // ---- Field values ----

  function Header(r: Request, name: string): string {
    if name in r.headers then r.headers[name] else ""
  }

  function Cookie(r: Request, name: string): string {
    if name in r.cookies then r.cookies[name] else ""
  }

  /** What a key carries for a request header: the value as sent, except Accept-Encoding. */
  function KeyValue(r: Request, name: string): string {
    if name == ACCEPT_ENCODING then NormalizeAcceptEncoding(r.accept) else Header(r, name)
  }

  // ---- Keys ----

  /** Each name followed by its value. */
  function PairFields(names: seq<string>, value: string -> string): (fields: seq<string>)
    ensures |fields| == 2 * |names|
    ensures forall i :: 0 <= i < |names| ==> fields[2 * i] == names[i] && fields[2 * i + 1] == value(names[i])
  {
    if names == [] then [] else
      var before := PairFields(names[..|names| - 1], value);
      before + [names[|names| - 1], value(names[|names| - 1])]
  }

  function HeaderFields(r: Request, names: seq<string>): seq<string> {
    PairFields(names, (n: string) => KeyValue(r, n))
  }

  function CookieFields(r: Request, names: seq<string>): seq<string> {
    PairFields(names, (n: string) => Cookie(r, n))
  }

  function AddressFields(r: Request): (fields: seq<string>)
    ensures |fields| == 7
  {
    [KEY_VERSION, r.service, r.rollout, if r.tls then "https" else "http", r.host, r.path, r.query]
  }

  function PrimaryFields(r: Request, o: KeyOptions): seq<string> {
    AddressFields(r) + HeaderFields(r, o.varyHeaders) + CookieFields(r, o.varyCookies)
  }

  function PrimaryKey(h: Hash, r: Request, o: KeyOptions): string {
    KEY_PREFIX + r.service + ":" + h(FrameAll(PrimaryFields(r, o)))
  }

  function VariantFields(primary: string, varyOn: seq<string>, r: Request): seq<string> {
    [primary] + HeaderFields(r, varyOn)
  }

  function VariantDigest(h: Hash, primary: string, varyOn: seq<string>, r: Request): (d: string)
    ensures |d| == VARIANT_DIGEST_LENGTH && ':' !in d
  {
    var digest: string := h(FrameAll(VariantFields(primary, varyOn, r)));
    digest[..VARIANT_DIGEST_LENGTH]
  }

  /** An empty vary list adds nothing to the primary key. */
  function VariantKey(h: Hash, primary: string, varyOn: seq<string>, r: Request): string {
    if varyOn == [] then primary else primary + VariantDigest(h, primary, varyOn, r)
  }

  /** The hashing loops of the primary key. */
  method ComputePrimaryKey(h: Hash, r: Request, o: KeyOptions) returns (key: string)
    ensures key == PrimaryKey(h, r, o)
  {
    var hashed := HashFields(AddressFields(r));
    hashed := HashPairs(hashed, AddressFields(r), o.varyHeaders, (n: string) => KeyValue(r, n));
    hashed := HashPairs(hashed, AddressFields(r) + HeaderFields(r, o.varyHeaders), o.varyCookies, (n: string) => Cookie(r, n));
    key := KEY_PREFIX + r.service + ":" + h(hashed);
  }

  method HashFields(fields: seq<string>) returns (hashed: string)
    ensures hashed == FrameAll(fields)
  {
    hashed := "";
    for i := 0 to |fields|
      invariant hashed == FrameAll(fields[..i])
    {
      FrameAllAppend(fields[..i], fields[i]);
      assert fields[..i + 1] == fields[..i] + [fields[i]];
      hashed := hashed + Frame(fields[i]);
    }
    assert fields[..|fields|] == fields;
  }

  /** Feeds each name and its value to a hasher that has already read `before`. */
  method HashPairs(hashed: string, before: seq<string>, names: seq<string>, value: string -> string) returns (fed: string)
    requires hashed == FrameAll(before)
    ensures fed == FrameAll(before + PairFields(names, value))
  {
    fed := hashed;
    assert before + PairFields(names[..0], value) == before;
    for i := 0 to |names|
      invariant fed == FrameAll(before + PairFields(names[..i], value))
    {
      OnePairMore(before, names, value, i);
      fed := fed + Frame(names[i]) + Frame(value(names[i]));
    }
    assert names[..|names|] == names;
  }

  lemma OnePairMore(before: seq<string>, names: seq<string>, value: string -> string, i: nat)
    requires i < |names|
    ensures FrameAll(before + PairFields(names[..i + 1], value))
            == FrameAll(before + PairFields(names[..i], value)) + Frame(names[i]) + Frame(value(names[i]))
  {
    var done := before + PairFields(names[..i], value);
    FrameAllAppend(done, names[i]);
    FrameAllAppend(done + [names[i]], value(names[i]));
    assert names[..i + 1][..i] == names[..i];
    assert before + PairFields(names[..i + 1], value) == done + [names[i]] + [value(names[i])];
  }

  method ComputeVariantKey(h: Hash, primary: string, varyOn: seq<string>, r: Request) returns (key: string)
    ensures key == VariantKey(h, primary, varyOn, r)
  {
    if varyOn == [] {
      return primary;
    }
    var hashed := HashFields([primary]);
    hashed := HashPairs(hashed, [primary], varyOn, (n: string) => KeyValue(r, n));
    var digest: string := h(hashed);
    key := primary + digest[..VARIANT_DIGEST_LENGTH];
  }

  // ---- What equal keys mean ----

  /** Two different inputs one digest cannot tell apart. */
  ghost predicate Collision(h: Hash, a: string, b: string) {
    a != b && h(a) == h(b)
  }

  ghost predicate TruncatedCollision(h: Hash, a: string, b: string) {
    a != b && h(a)[..VARIANT_DIGEST_LENGTH] == h(b)[..VARIANT_DIGEST_LENGTH]
  }

  predicate SameKeyValues(varyOn: seq<string>, q: Request, r: Request) {
    forall f :: f in varyOn ==> KeyValue(q, f) == KeyValue(r, f)
  }

  // ---- The same, in the requests' own terms ----

  /** One name has one value in two maps, a missing one reading as empty. */
  predicate SameEntry(a: map<string, string>, b: map<string, string>, name: string) {
    && (name in a && name in b ==> a[name] == b[name])
    && (name in a && name !in b ==> a[name] == "")
    && (name !in a && name in b ==> b[name] == "")
  }

  /** The clients accept the same of the codings keys tell apart. */
  predicate SameCodings(a: Accept, b: Accept) {
    forall coding :: coding in ["br", "deflate", "gzip", "identity", "zstd"] ==> Usable(a, coding) == Usable(b, coding)
  }

  /** Two requests agree on a header field: Accept-Encoding by what it accepts, any other by what was sent. */
  predicate SameField(q: Request, r: Request, field: string) {
    if field == "accept-encoding" then SameCodings(q.accept, r.accept) else SameEntry(q.headers, r.headers, field)
  }

  predicate SameFields(fields: seq<string>, q: Request, r: Request) {
    forall f :: f in fields ==> SameField(q, r, f)
  }

  lemma KeyValueIff(q: Request, r: Request, field: string)
    ensures KeyValue(q, field) == KeyValue(r, field) <==> SameField(q, r, field)
  {
    SameEncodingKeyIff(q.accept, r.accept);
  }

  /** What a key carries for a list of fields tells two requests apart exactly when one of the fields does. */
  lemma KeyValuesIff(fields: seq<string>, q: Request, r: Request)
    ensures SameKeyValues(fields, q, r) <==> SameFields(fields, q, r)
  {
    forall f | f in fields ensures KeyValue(q, f) == KeyValue(r, f) <==> SameField(q, r, f) {
      KeyValueIff(q, r, f);
    }
  }

  /** Everything a primary key speaks for. */
  predicate SameResource(o: KeyOptions, q: Request, r: Request) {
    && q.service == r.service && q.rollout == r.rollout && q.tls == r.tls
    && q.host == r.host && q.path == r.path && q.query == r.query
    && SameFields(o.varyHeaders, q, r)
    && (forall c :: c in o.varyCookies ==> SameEntry(q.cookies, r.cookies, c))
  }

  lemma PrimaryShape(h: Hash, r: Request, o: KeyOptions)
    ensures var key := PrimaryKey(h, r, o);
            |key| > 65 && key[|key| - 64..] == h(FrameAll(PrimaryFields(r, o))) && key[|key| - 65] == ':'
            && ':' !in key[|key| - 64..]
  {
  }

  lemma VariantShape(h: Hash, primary: string, varyOn: seq<string>, r: Request)
    requires varyOn != []
    ensures var key := VariantKey(h, primary, varyOn, r);
            |key| == |primary| + 16 && key[..|primary|] == primary && ':' !in key[|primary|..]
  {
    assert VariantKey(h, primary, varyOn, r)[|primary|..] == VariantDigest(h, primary, varyOn, r);
  }

  /** No variant key is any resource's primary key: after the last colon the one has 80 digits, the other 64. */
  lemma KeySpacesDisjoint(h: Hash, q: Request, o1: KeyOptions, r: Request, o2: KeyOptions, varyOn: seq<string>, s: Request)
    requires varyOn != []
    ensures PrimaryKey(h, q, o1) != VariantKey(h, PrimaryKey(h, r, o2), varyOn, s)
  {
    var p, base := PrimaryKey(h, q, o1), PrimaryKey(h, r, o2);
    var v := VariantKey(h, base, varyOn, s);
    PrimaryShape(h, q, o1);
    PrimaryShape(h, r, o2);
    VariantShape(h, base, varyOn, s);
    var at := |v| - 65;
    assert v[at] == v[..|base|][at] == base[|base| - 64..][15];
    assert v[at] in base[|base| - 64..];
  }

  /** Equal variant keys come from one resource. */
  lemma VariantNamesPrimary(h: Hash, p1: string, p2: string, varyOn: seq<string>, q: Request, r: Request)
    requires VariantKey(h, p1, varyOn, q) == VariantKey(h, p2, varyOn, r)
    ensures p1 == p2
  {
    if varyOn != [] {
      VariantShape(h, p1, varyOn, q);
      VariantShape(h, p2, varyOn, r);
    }
  }

  /** Equal variant keys mean one resource and agreement on every field, or a collision of the truncated digest. */
  lemma EqualVariantKeys(h: Hash, primary: string, other: string, varyOn: seq<string>, q: Request, r: Request)
    requires Addressable(VariantFields(primary, varyOn, q)) && Addressable(VariantFields(other, varyOn, r))
    requires VariantKey(h, primary, varyOn, q) == VariantKey(h, other, varyOn, r)
    ensures primary == other
    ensures SameFields(varyOn, q, r)
            || TruncatedCollision(h, FrameAll(VariantFields(primary, varyOn, q)), FrameAll(VariantFields(other, varyOn, r)))
  {
    VariantNamesPrimary(h, primary, other, varyOn, q, r);
    if varyOn != [] {
      var a, b := VariantFields(primary, varyOn, q), VariantFields(primary, varyOn, r);
      assert VariantDigest(h, primary, varyOn, q) == VariantKey(h, primary, varyOn, q)[|primary|..];
      assert VariantDigest(h, primary, varyOn, r) == VariantKey(h, primary, varyOn, r)[|primary|..];
      if FrameAll(a) == FrameAll(b) {
        FramingInjective(a, b);
        assert HeaderFields(q, varyOn) == a[1..] && HeaderFields(r, varyOn) == b[1..];
        SameHeaderFields(varyOn, q, r);
        KeyValuesIff(varyOn, q, r);
      }
    }
  }

  lemma PairFieldsSame(names: seq<string>, v: string -> string, w: string -> string)
    requires forall n :: n in names ==> v(n) == w(n)
    ensures PairFields(names, v) == PairFields(names, w)
  {
    var a, b := PairFields(names, v), PairFields(names, w);
    forall i | 0 <= i < |a| ensures a[i] == b[i] {
      var k := i / 2;
      assert names[k] in names;
      assert i == 2 * k || i == 2 * k + 1;
    }
  }

  lemma SameFieldsSameHeaders(names: seq<string>, q: Request, r: Request)
    requires SameFields(names, q, r)
    ensures HeaderFields(q, names) == HeaderFields(r, names)
  {
    KeyValuesIff(names, q, r);
    PairFieldsSame(names, (n: string) => KeyValue(q, n), (n: string) => KeyValue(r, n));
  }

  /** Agreement gives equal keys, so a request that agrees looks where the response was put. */
  lemma SameValuesSameVariantKey(h: Hash, primary: string, varyOn: seq<string>, q: Request, r: Request)
    requires SameFields(varyOn, q, r)
    ensures VariantKey(h, primary, varyOn, q) == VariantKey(h, primary, varyOn, r)
  {
    SameFieldsSameHeaders(varyOn, q, r);
  }

  /** A request for the same resource has the same primary key. */
  lemma SameResourceSameKey(h: Hash, o: KeyOptions, q: Request, r: Request)
    requires SameResource(o, q, r)
    ensures PrimaryKey(h, q, o) == PrimaryKey(h, r, o)
  {
    SameFieldsSameHeaders(o.varyHeaders, q, r);
    PairFieldsSame(o.varyCookies, (n: string) => Cookie(q, n), (n: string) => Cookie(r, n));
  }

  lemma SameAddress(q: Request, r: Request)
    requires AddressFields(q) == AddressFields(r)
    ensures q.service == r.service && q.rollout == r.rollout && q.tls == r.tls
    ensures q.host == r.host && q.path == r.path && q.query == r.query
  {
    var a, b := AddressFields(q), AddressFields(r);
    assert a[1] == b[1] && a[2] == b[2] && a[3] == b[3] && a[4] == b[4] && a[5] == b[5] && a[6] == b[6];
    assert |"https"| == 5 && |"http"| == 4;
  }

  lemma SameHeaderFields(names: seq<string>, q: Request, r: Request)
    requires HeaderFields(q, names) == HeaderFields(r, names)
    ensures SameKeyValues(names, q, r)
  {
    forall f | f in names ensures KeyValue(q, f) == KeyValue(r, f) {
      var i :| 0 <= i < |names| && names[i] == f;
      assert HeaderFields(q, names)[2 * i + 1] == HeaderFields(r, names)[2 * i + 1];
    }
  }

  lemma SameCookieFields(names: seq<string>, q: Request, r: Request)
    requires CookieFields(q, names) == CookieFields(r, names)
    ensures forall c :: c in names ==> SameEntry(q.cookies, r.cookies, c)
  {
    forall c | c in names ensures SameEntry(q.cookies, r.cookies, c) {
      var i :| 0 <= i < |names| && names[i] == c;
      assert CookieFields(q, names)[2 * i + 1] == CookieFields(r, names)[2 * i + 1];
    }
  }

  /** Equal primary keys under one service configuration mean one resource, or a collision of the full digest. */
  lemma EqualPrimaryKeys(h: Hash, o: KeyOptions, q: Request, r: Request)
    requires Addressable(PrimaryFields(q, o)) && Addressable(PrimaryFields(r, o))
    requires PrimaryKey(h, q, o) == PrimaryKey(h, r, o)
    ensures SameResource(o, q, r) || Collision(h, FrameAll(PrimaryFields(q, o)), FrameAll(PrimaryFields(r, o)))
  {
    PrimaryShape(h, q, o);
    PrimaryShape(h, r, o);
    var a, b := PrimaryFields(q, o), PrimaryFields(r, o);
    if FrameAll(a) == FrameAll(b) {
      FramingInjective(a, b);
      SplitFields(AddressFields(q), HeaderFields(q, o.varyHeaders), CookieFields(q, o.varyCookies),
                  AddressFields(r), HeaderFields(r, o.varyHeaders), CookieFields(r, o.varyCookies));
      SameAddress(q, r);
      SameHeaderFields(o.varyHeaders, q, r);
      KeyValuesIff(o.varyHeaders, q, r);
      SameCookieFields(o.varyCookies, q, r);
    }
  }

  /** A primary key names its service, whatever the two services' configurations. */
  lemma EqualKeysSameService(h: Hash, q: Request, o1: KeyOptions, r: Request, o2: KeyOptions)
    requires PrimaryKey(h, q, o1) == PrimaryKey(h, r, o2)
    ensures q.service == r.service
  {
    ServiceInKey(h, q, o1);
    ServiceInKey(h, r, o2);
  }

  lemma ServiceInKey(h: Hash, r: Request, o: KeyOptions)
    ensures var key := PrimaryKey(h, r, o);
            |key| == |KEY_PREFIX| + |r.service| + 65 && key[|KEY_PREFIX|..|key| - 65] == r.service
  {
    var digest: string := h(FrameAll(PrimaryFields(r, o)));
    assert |digest| == 64;
    var key := PrimaryKey(h, r, o);
    assert key == KEY_PREFIX + r.service + ":" + digest;
  }

  lemma SplitFields(a: seq<string>, b: seq<string>, c: seq<string>, d: seq<string>, e: seq<string>, f: seq<string>)
    requires |a| == |d| && |b| == |e| && a + b + c == d + e + f
    ensures a == d && b == e && c == f
  {
    var left, right := a + b + c, d + e + f;
    assert a == left[..|a|] && d == right[..|a|];
    assert b == left[|a|..|a| + |b|] && e == right[|a|..|a| + |b|];
    assert c == left[|a| + |b|..] && f == right[|a| + |b|..];
  }
}
