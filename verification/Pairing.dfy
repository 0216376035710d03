/** The pairing link: how the daemon prints it and how the phone reads it back. */
module Pairing {
  import opened Wrappers

  datatype RelayConfig = RelayConfig(relayUrl: string, secret: string, publicKey: string, token: Option<string>)

  // ------------------------------------------------------------ printing

  function Replace(s: string, c: char, escape: string): string {
    if s == [] then [] else (if s[0] == c then escape else [s[0]]) + Replace(s[1..], c, escape)
  }

  /** Five passes over the whole string, the escape character first. */
  function UrlEncoded(s: string): string {
    Replace(Replace(Replace(Replace(Replace(s, '%', "%25"), '&', "%26"), '=', "%3D"), '+', "%2B"), ' ', "%20")
  }

  const PREFIX := "agentdash://pair?"

  // ------------------------------------------------------------ one pass

  /** What the five passes make of one character. */
  function Escape(c: char): string {
    match c
    case '%' => "%25"
    case '&' => "%26"
    case '=' => "%3D"
    case '+' => "%2B"
    case ' ' => "%20"
    case _ => [c]
  }

  function Encoded(s: string): string {
    if s == [] then [] else Escape(s[0]) + Encoded(s[1..])
  }

  lemma {:induction false} ReplaceConcat(a: string, b: string, c: char, escape: string)
    ensures Replace(a + b, c, escape) == Replace(a, c, escape) + Replace(b, c, escape)
  {
    if a == [] {
      assert a + b == b;
    } else {
      ReplaceConcat(a[1..], b, c, escape);
      assert (a + b)[1..] == a[1..] + b;
      ConcatAssociative(if a[0] == c then escape else [a[0]], Replace(a[1..], c, escape), Replace(b, c, escape));
    }
  }

  lemma UrlEncodedConcat(a: string, b: string)
    ensures UrlEncoded(a + b) == UrlEncoded(a) + UrlEncoded(b)
  {
    var a1, b1 := Replace(a, '%', "%25"), Replace(b, '%', "%25");
    var a2, b2 := Replace(a1, '&', "%26"), Replace(b1, '&', "%26");
    var a3, b3 := Replace(a2, '=', "%3D"), Replace(b2, '=', "%3D");
    var a4, b4 := Replace(a3, '+', "%2B"), Replace(b3, '+', "%2B");
    ReplaceConcat(a, b, '%', "%25");
    ReplaceConcat(a1, b1, '&', "%26");
    ReplaceConcat(a2, b2, '=', "%3D");
    ReplaceConcat(a3, b3, '+', "%2B");
    ReplaceConcat(a4, b4, ' ', "%20");
  }

  lemma ReplaceOne(x: char, c: char, escape: string)
    ensures Replace([x], c, escape) == if x == c then escape else [x]
  {
  }

  /** An escape is left alone by the later passes. */
  lemma ReplaceEscape(x: char, y: char, c: char, escape: string)
    requires '%' != c && x != c && y != c
    ensures Replace(['%', x, y], c, escape) == ['%', x, y]
  {
    ReplaceOne('%', c, escape);
    ReplaceOne(x, c, escape);
    ReplaceOne(y, c, escape);
    ReplaceConcat(['%'], [x], c, escape);
    ReplaceConcat(['%'] + [x], [y], c, escape);
    assert ['%'] + [x] + [y] == ['%', x, y];
  }

  lemma UrlEncodedOne(c: char)
    ensures UrlEncoded([c]) == Escape(c)
  {
    ReplaceOne(c, '%', "%25");
    ReplaceOne(c, '&', "%26");
    ReplaceOne(c, '=', "%3D");
    ReplaceOne(c, '+', "%2B");
    ReplaceOne(c, ' ', "%20");
    if c == '%' {
      ReplaceEscape('2', '5', '&', "%26");
    }
    if c == '%' || c == '&' {
      ReplaceEscape('2', Escape(c)[2], '=', "%3D");
    }
    if c == '%' || c == '&' || c == '=' {
      ReplaceEscape(Escape(c)[1], Escape(c)[2], '+', "%2B");
    }
    if c == '%' || c == '&' || c == '=' || c == '+' {
      ReplaceEscape(Escape(c)[1], Escape(c)[2], ' ', "%20");
    }
  }

  /** The five passes amount to one character-wise encoding. */
  lemma {:induction false} FivePassesAreOne(s: string)
    ensures UrlEncoded(s) == Encoded(s)
  {
    if s == [] {
    } else {
      assert s == [s[0]] + s[1..];
      UrlEncodedConcat([s[0]], s[1..]);
      UrlEncodedOne(s[0]);
      FivePassesAreOne(s[1..]);
    }
  }

  predicate Free(s: string, c: char) {
    s == [] || (s[0] != c && Free(s[1..], c))
  }

  lemma {:induction false} FreeConcat(a: string, b: string, c: char)
    ensures Free(a + b, c) <==> Free(a, c) && Free(b, c)
  {
    if a == [] {
      assert a + b == b;
    } else {
      assert (a + b)[1..] == a[1..] + b;
      FreeConcat(a[1..], b, c);
    }
  }

  lemma {:induction false} FreeMeans(s: string, c: char)
    ensures Free(s, c) <==> forall i :: 0 <= i < |s| ==> s[i] != c
  {
    if s == [] {
    } else {
      FreeMeans(s[1..], c);
      if exists i :: 0 <= i < |s| && s[i] == c && s[0] != c {
        var i :| 0 <= i < |s| && s[i] == c && s[0] != c;
        assert s[1..][i - 1] == c;
      }
    }
  }

  lemma EscapeFree(x: char, c: char)
    requires c in {'&', '=', '+', ' '}
    ensures Free(Escape(x), c)
  {
    FreeMeans(Escape(x), c);
  }

  lemma {:induction false} EncodedIsSafe(s: string)
    ensures Free(UrlEncoded(s), '&') && Free(UrlEncoded(s), '=') && Free(UrlEncoded(s), '+') && Free(UrlEncoded(s), ' ')
  {
    FivePassesAreOne(s);
    if s != [] {
      EncodedIsSafe(s[1..]);
      FivePassesAreOne(s[1..]);
      EscapeFree(s[0], '&');
      EscapeFree(s[0], '=');
      EscapeFree(s[0], '+');
      EscapeFree(s[0], ' ');
      FreeConcat(Escape(s[0]), Encoded(s[1..]), '&');
      FreeConcat(Escape(s[0]), Encoded(s[1..]), '=');
      FreeConcat(Escape(s[0]), Encoded(s[1..]), '+');
      FreeConcat(Escape(s[0]), Encoded(s[1..]), ' ');
    }
  }

  // ------------------------------------------------------------ reading

  /** Position of the first `c`, or the length. */
  function Find(s: string, c: char): (i: nat)
    ensures i <= |s|
    ensures i < |s| ==> s[i] == c
  {
    if s == [] || s[0] == c then 0 else 1 + Find(s[1..], c)
  }

  function Before(s: string, c: char): string {
    s[..Find(s, c)]
  }

  function After(s: string, c: char): string {
    if Find(s, c) < |s| then s[Find(s, c) + 1..] else ""
  }

  function Split(s: string, c: char): seq<string>
    decreases |s|
  {
    if Find(s, c) == |s| then [s] else [Before(s, c)] + Split(After(s, c), c)
  }

  function HexValue(c: char): Option<nat> {
    if '0' <= c <= '9' then Some((c - '0') as nat)
    else if 'A' <= c <= 'F' then Some((c - 'A') as nat + 10)
    else if 'a' <= c <= 'f' then Some((c - 'a') as nat + 10)
    else None
  }

  const REPLACEMENT := '\U{FFFD}'

  /** Percent-decoding of ASCII escapes; a plus sign stands for a space. */
  function Decoded(s: string): string {
    if s == [] then []
    else if s[0] == '+' then [' '] + Decoded(s[1..])
    else if s[0] != '%' then [s[0]] + Decoded(s[1..])
    else if |s| < 3 || HexValue(s[1]) == None || HexValue(s[2]) == None then [REPLACEMENT] + Decoded(s[1..])
    else
      var code := 16 * HexValue(s[1]).value + HexValue(s[2]).value;
      [if code < 0x80 then code as char else REPLACEMENT] + Decoded(s[3..])
  }

  datatype Field = Field(key: string, value: string)

  /** A component is a key and a value around its first equals sign. */
  function ReadField(component: string): Field {
    Field(Before(component, '='), Decoded(After(component, '=')))
  }

  function ReadFields(components: seq<string>): seq<Field> {
    if components == [] then [] else [ReadField(components[0])] + ReadFields(components[1..])
  }

  /** The first value under `key`. */
  function Lookup(fields: seq<Field>, key: string): Option<string> {
    if fields == [] then None else if fields[0].key == key then Some(fields[0].value) else Lookup(fields[1..], key)
  }

  /** The query ends where a fragment begins. */
  function QueryOf(uri: string): string {
    After(Before(uri, '#'), '?')
  }

  predicate IsPairing(uri: string) {
    var rest := After(uri, ':');
    && Before(uri, ':') == "agentdash" && "//" <= rest
    && Before(Before(Before(Before(rest[2..], '?'), '#'), '/'), '\\') == "pair"
  }

  function FromFields(fields: seq<Field>): Option<RelayConfig> {
    var relay, secret, pk := Lookup(fields, "relay"), Lookup(fields, "secret"), Lookup(fields, "pk");
    if relay == None || secret == None || pk == None then None
    else Some(RelayConfig(relay.value, secret.value, pk.value, Lookup(fields, "token")))
  }

  function ReadPairing(uri: string): Option<RelayConfig> {
    if !IsPairing(uri) then None else FromFields(ReadFields(Split(QueryOf(uri), '&')))
  }

  // ------------------------------------------------------------ round trip

  function TokenField(token: Option<string>): seq<Field> {
    match token case None => [] case Some(value) => [Field("token", value)]
  }

  function Fields(config: RelayConfig): seq<Field> {
    [Field("relay", config.relayUrl)]
    + ([Field("secret", config.secret)] + ([Field("pk", config.publicKey)] + TokenField(config.token)))
  }

  function Printed(field: Field): string {
    field.key + "=" + UrlEncoded(field.value)
  }

  function Query(fields: seq<Field>): string
    requires fields != []
  {
    if fields[1..] == [] then Printed(fields[0]) else Printed(fields[0]) + "&" + Query(fields[1..])
  }

  /** Nothing after the first `#` of a value survives, nor any later field. */
  function CutFields(fields: seq<Field>): seq<Field> {
    if fields == [] then []
    else if Free(fields[0].value, '#') then [fields[0]] + CutFields(fields[1..])
    else [Field(fields[0].key, Before(fields[0].value, '#'))]
  }

  predicate HasHash(config: RelayConfig) {
    !Free(config.relayUrl, '#') || !Free(config.secret, '#') || !Free(config.publicKey, '#')
    || (config.token.Some? && !Free(config.token.value, '#'))
  }

  predicate PlainKey(key: string) {
    Free(key, '&') && Free(key, '=') && Free(key, '#')
  }

  predicate PlainKeys(fields: seq<Field>) {
    fields == [] || (PlainKey(fields[0].key) && PlainKeys(fields[1..]))
  }

  lemma {:induction false} FindFree(s: string, c: char)
    ensures Free(s, c) <==> Find(s, c) == |s|
  {
    if s == [] {
    } else {
      FindFree(s[1..], c);
    }
  }

  lemma {:induction false} FindConcat(a: string, b: string, c: char)
    ensures Find(a + b, c) == if Find(a, c) < |a| then Find(a, c) else |a| + Find(b, c)
  {
    if a == [] {
      assert a + b == b;
    } else {
      assert (a + b)[1..] == a[1..] + b;
      FindConcat(a[1..], b, c);
    }
  }

  /** Splitting around the first `c`. */
  lemma FindFirst(a: string, b: string, c: char)
    requires Free(a, c)
    ensures Before(a + [c] + b, c) == a && After(a + [c] + b, c) == b && Find(a + [c] + b, c) == |a|
  {
    FindFree(a, c);
    assert a + [c] + b == a + ([c] + b);
    FindConcat(a, [c] + b, c);
  }

  lemma BeforeConcat(a: string, b: string, c: char)
    ensures Before(a + b, c) == if Free(a, c) then a + Before(b, c) else Before(a, c)
  {
    FindFree(a, c);
    FindConcat(a, b, c);
  }

  lemma DecodeStep(c: char, rest: string)
    ensures Decoded(Escape(c) + rest) == [c] + Decoded(rest)
  {
  }

  lemma {:induction false} DecodeEncoded(s: string)
    ensures Decoded(UrlEncoded(s)) == s
  {
    FivePassesAreOne(s);
    if s != [] {
      DecodeEncoded(s[1..]);
      FivePassesAreOne(s[1..]);
      DecodeStep(s[0], Encoded(s[1..]));
    }
  }

  lemma EscapeHash(c: char)
    requires c != '#'
    ensures Free(Escape(c), '#')
  {
    FreeMeans(Escape(c), '#');
  }

  lemma EncodedCons(c: char, rest: string)
    ensures Encoded([c] + rest) == Escape(c) + Encoded(rest)
  {
  }

  lemma {:induction false} BeforeOnePass(s: string)
    ensures Before(Encoded(s), '#') == Encoded(Before(s, '#'))
    ensures Free(Encoded(s), '#') <==> Free(s, '#')
  {
    if s != [] && s[0] != '#' {
      BeforeOnePass(s[1..]);
      EscapeHash(s[0]);
      BeforeConcat(Escape(s[0]), Encoded(s[1..]), '#');
      FreeConcat(Escape(s[0]), Encoded(s[1..]), '#');
      assert s == [s[0]] + s[1..] && Free([s[0]], '#');
      BeforeConcat([s[0]], s[1..], '#');
      EncodedCons(s[0], Before(s[1..], '#'));
    }
  }

  /** The encoding leaves `#` where it is, so a cut text is the text of the cut. */
  lemma BeforeEncoded(s: string)
    ensures Before(UrlEncoded(s), '#') == UrlEncoded(Before(s, '#'))
    ensures Free(UrlEncoded(s), '#') <==> Free(s, '#')
  {
    FivePassesAreOne(s);
    FivePassesAreOne(Before(s, '#'));
    BeforeOnePass(s);
  }

  lemma ReadPrinted(field: Field)
    requires PlainKey(field.key)
    ensures ReadField(Printed(field)) == field && Free(Printed(field), '&')
  {
    FindFirst(field.key, UrlEncoded(field.value), '=');
    DecodeEncoded(field.value);
    EncodedIsSafe(field.value);
    FreeConcat(field.key + "=", UrlEncoded(field.value), '&');
    FreeConcat(field.key, "=", '&');
    assert "="[1..] == "";
  }

  lemma CutPrinted(field: Field)
    requires PlainKey(field.key)
    ensures Before(Printed(field), '#') == Printed(Field(field.key, Before(field.value, '#')))
    ensures Free(Printed(field), '#') <==> Free(field.value, '#')
  {
    BeforeEncoded(field.value);
    var head := field.key + "=";
    assert "="[1..] == "";
    FreeConcat(field.key, "=", '#');
    BeforeConcat(head, UrlEncoded(field.value), '#');
    FreeConcat(head, UrlEncoded(field.value), '#');
  }

  /** Cutting the query at the first `#` leaves the query of the cut fields. */
  lemma {:induction false} CutQuery(fields: seq<Field>)
    requires fields != [] && PlainKeys(fields)
    ensures CutFields(fields) != [] && PlainKeys(CutFields(fields))
    ensures Before(Query(fields), '#') == Query(CutFields(fields))
  {
    var first, rest := fields[0], fields[1..];
    CutPrinted(first);
    FindFree(first.value, '#');
    FindFree(Printed(first), '#');
    if Free(first.value, '#') {
      assert Before(Printed(first), '#') == Printed(first);
    }
    if rest == [] {
      assert CutFields(rest) == [];
      assert CutFields(fields)[1..] == [];
    } else {
      CutQuery(rest);
      BeforeConcat(Printed(first) + "&", Query(rest), '#');
      BeforeConcat(Printed(first), "&", '#');
      FreeConcat(Printed(first), "&", '#');
      assert "&"[1..] == "";
      if Free(first.value, '#') {
        assert CutFields(fields)[1..] == CutFields(rest);
      } else {
        assert CutFields(fields)[1..] == [];
      }
    }
  }

  lemma SplitFirst(a: string, b: string, c: char)
    requires Free(a, c)
    ensures Split(a + [c] + b, c) == [a] + Split(b, c)
  {
    FindFirst(a, b, c);
  }

  lemma ReadFirst(component: string, rest: seq<string>)
    ensures ReadFields([component] + rest) == [ReadField(component)] + ReadFields(rest)
  {
  }

  lemma {:induction false} ReadQuery(fields: seq<Field>)
    requires fields != [] && PlainKeys(fields)
    ensures ReadFields(Split(Query(fields), '&')) == fields
  {
    var first, rest := fields[0], fields[1..];
    ReadPrinted(first);
    assert fields == [first] + rest;
    if rest == [] {
      FindFree(Printed(first), '&');
      ReadFirst(Printed(first), []);
    } else {
      SplitFirst(Printed(first), Query(rest), '&');
      ReadQuery(rest);
      ReadFirst(Printed(first), Split(Query(rest), '&'));
    }
  }

  lemma AllDiffer(s: string, c: char)
    requires forall i :: 0 <= i < |s| ==> s[i] != c
    ensures Free(s, c)
  {
  }

  lemma PlainParts(scheme: string, host: string)
    requires scheme == "agentdash" && host == "pair"
    ensures Free(scheme, ':') && Free(scheme, '?') && Free(scheme, '#')
    ensures forall c | c in {'?', '#', '/', '\\'} :: Free(host, c)
  {
    AllDiffer(scheme, ':');
    AllDiffer(scheme, '?');
    AllDiffer(scheme, '#');
    forall c | c in {'?', '#', '/', '\\'} ensures Free(host, c) {
      AllDiffer(host, c);
    }
  }

  lemma WholeBefore(s: string, c: char)
    requires Free(s, c)
    ensures Before(s, c) == s
  {
  }

  /** The authority of a link is its host. */
  lemma HostOf(host: string, query: string)
    requires forall c | c in {'?', '#', '/', '\\'} :: Free(host, c)
    ensures Before(Before(Before(Before(host + ['?'] + query, '?'), '#'), '/'), '\\') == host
  {
    FindFirst(host, query, '?');
    WholeBefore(host, '#');
    WholeBefore(host, '/');
    WholeBefore(host, '\\');
  }

  lemma LinkAccepted(query: string)
    ensures IsPairing(PREFIX + query)
  {
    var scheme, host := "agentdash", "pair";
    PlainParts(scheme, host);
    var rest := "//" + (host + ['?'] + query);
    assert PREFIX + query == scheme + [':'] + rest;
    FindFirst(scheme, rest, ':');
    assert rest[2..] == host + ['?'] + query;
    HostOf(host, query);
  }

  /** The query of a link is what precedes any `#`. */
  lemma QueryAfter(head: string, query: string)
    requires Free(head, '?') && Free(head, '#')
    ensures QueryOf(head + ['?'] + query) == Before(query, '#')
  {
    FreeConcat(head, ['?'], '#');
    assert ['?'][1..] == [];
    BeforeConcat(head + ['?'], query, '#');
    FindFirst(head, Before(query, '#'), '?');
  }

  lemma LinkQuery(query: string)
    ensures QueryOf(PREFIX + query) == Before(query, '#')
  {
    var head := PREFIX[..|PREFIX| - 1];
    forall c | c == '?' || c == '#' ensures Free(head, c) {
      assert forall i :: 0 <= i < |head| ==> head[i] == PREFIX[i] && PREFIX[i] != c;
      AllDiffer(head, c);
    }
    QueryAfter(head, query);
    assert head + ['?'] + query == PREFIX + query;
  }

  lemma QueryCons(field: Field, rest: seq<Field>)
    ensures Query([field] + rest) == Printed(field) + if rest == [] then "" else "&" + Query(rest)
    ensures PlainKeys([field] + rest) <==> PlainKey(field.key) && PlainKeys(rest)
    ensures CutFields([field] + rest)
            == if Free(field.value, '#') then [field] + CutFields(rest) else [Field(field.key, Before(field.value, '#'))]
  {
  }

  lemma PlainNames()
    ensures PlainKey("relay") && PlainKey("secret") && PlainKey("pk") && PlainKey("token")
  {
  }

  lemma PrintedPieces(value: string)
    ensures "relay=" + UrlEncoded(value) == Printed(Field("relay", value))
    ensures "&secret=" + UrlEncoded(value) == "&" + Printed(Field("secret", value))
    ensures "&pk=" + UrlEncoded(value) == "&" + Printed(Field("pk", value))
    ensures "&token=" + UrlEncoded(value) == "&" + Printed(Field("token", value))
  {
  }

  lemma ConcatFive<T>(z: seq<T>, a: seq<T>, b: seq<T>, c: seq<T>, d: seq<T>)
    ensures z + (a + (b + (c + d))) == (((z + a) + b) + c) + d
  {
  }

  function TokenText(token: Option<string>): string {
    match token case None => "" case Some(value) => "&token=" + UrlEncoded(value)
  }

  lemma QueryTail(pk: Field, token: Option<string>)
    requires PlainKey(pk.key) && PlainKey("token")
    ensures Query([pk] + TokenField(token)) == Printed(pk) + TokenText(token)
    ensures PlainKeys([pk] + TokenField(token))
  {
  }

  lemma QueryOfFields(config: RelayConfig)
    ensures Fields(config) != [] && PlainKeys(Fields(config))
    ensures Query(Fields(config))
            == Printed(Field("relay", config.relayUrl)) + ("&" + Printed(Field("secret", config.secret))
              + ("&" + Printed(Field("pk", config.publicKey)) + TokenText(config.token)))
  {
    PlainNames();
    var relay, secret, pk, last := Field("relay", config.relayUrl), Field("secret", config.secret),
      Field("pk", config.publicKey), TokenField(config.token);
    QueryTail(pk, config.token);
    ConcatAssociative("&", Printed(pk), TokenText(config.token));
    QueryCons(secret, [pk] + last);
    QueryCons(relay, [secret] + ([pk] + last));
    ConcatAssociative("&", Printed(secret), "&" + Printed(pk) + TokenText(config.token));
  }

  lemma PrintedFields(config: RelayConfig)
    ensures Fields(config) != [] && PlainKeys(Fields(config))
    ensures PREFIX + Query(Fields(config))
            == PREFIX + ("relay=" + UrlEncoded(config.relayUrl)) + ("&secret=" + UrlEncoded(config.secret))
               + ("&pk=" + UrlEncoded(config.publicKey)) + TokenText(config.token)
  {
    QueryOfFields(config);
    PrintedPieces(config.relayUrl);
    PrintedPieces(config.secret);
    PrintedPieces(config.publicKey);
    ConcatFive(PREFIX, Printed(Field("relay", config.relayUrl)), "&" + Printed(Field("secret", config.secret)),
               "&" + Printed(Field("pk", config.publicKey)), TokenText(config.token));
  }

  lemma ReadsBack(config: RelayConfig)
    ensures ReadPairing(PREFIX + Query(Fields(config))) == FromFields(CutFields(Fields(config)))
  {
    var fields := Fields(config);
    PrintedFields(config);
    LinkAccepted(Query(fields));
    LinkQuery(Query(fields));
    CutQuery(fields);
    ReadQuery(CutFields(fields));
  }

  lemma LookupCons(field: Field, rest: seq<Field>, key: string)
    ensures Lookup([field] + rest, key) == if field.key == key then Some(field.value) else Lookup(rest, key)
  {
  }

  lemma LookupThree(a: Field, b: Field, c: Field, rest: seq<Field>, key: string)
    ensures Lookup([a] + ([b] + ([c] + rest)), key)
            == if a.key == key then Some(a.value) else if b.key == key then Some(b.value)
               else if c.key == key then Some(c.value) else Lookup(rest, key)
  {
    LookupCons(c, rest, key);
    LookupCons(b, [c] + rest, key);
    LookupCons(a, [b] + ([c] + rest), key);
  }

  lemma NamesDiffer()
    ensures "relay" != "secret" && "relay" != "pk" && "relay" != "token" && "secret" != "pk" && "secret" != "token"
            && "pk" != "token"
  {
  }

  /** Reading the fields of a configuration whose values are `r`, `s`, `p` and
      whose remaining fields are `rest`. */
  lemma FromThree(r: string, s: string, p: string, rest: seq<Field>)
    requires rest == [] || (|rest| == 1 && rest[0].key == "token")
    ensures FromFields([Field("relay", r)] + ([Field("secret", s)] + ([Field("pk", p)] + rest)))
            == Some(RelayConfig(r, s, p, if rest == [] then None else Some(rest[0].value)))
  {
    var a, b, c := Field("relay", r), Field("secret", s), Field("pk", p);
    NamesDiffer();
    LookupThree(a, b, c, rest, "relay");
    LookupThree(a, b, c, rest, "secret");
    LookupThree(a, b, c, rest, "pk");
    LookupThree(a, b, c, rest, "token");
  }

  lemma CutShrinks(s: string)
    requires !Free(s, '#')
    ensures Before(s, '#') != s
  {
  }

  /** A `#` in the last value read back shortens it. */
  lemma LastFieldsExactly(r: string, s: string, p: string, token: Option<string>)
    ensures FromFields([Field("relay", r)] + ([Field("secret", s)] + CutFields([Field("pk", p)] + TokenField(token))))
              == Some(RelayConfig(r, s, p, token))
            <==> Free(p, '#') && (token.Some? ==> Free(token.value, '#'))
  {
    var t := TokenField(token);
    QueryCons(Field("pk", p), t);
    if !Free(p, '#') {
      CutShrinks(p);
      assert [Field("pk", Before(p, '#'))] == [Field("pk", Before(p, '#'))] + [];
      FromThree(r, s, Before(p, '#'), []);
    } else {
      if token.Some? {
        QueryCons(t[0], []);
        assert t == t + [];
        if !Free(token.value, '#') {
          CutShrinks(token.value);
        }
      }
      FromThree(r, s, p, CutFields(t));
    }
  }

  /** Without its secret or its key a link is refused. */
  lemma MissingField(relay: string, secret: string)
    ensures FromFields([Field("relay", relay)]) == None
    ensures FromFields([Field("relay", relay)] + [Field("secret", secret)]) == None
  {
    NamesDiffer();
    assert [Field("relay", relay)] == [Field("relay", relay)] + [];
    assert [Field("secret", secret)] == [Field("secret", secret)] + [];
    LookupCons(Field("relay", relay), [], "secret");
    LookupCons(Field("secret", secret), [], "pk");
    LookupCons(Field("relay", relay), [Field("secret", secret)], "pk");
  }

  /** The phone recovers the configuration exactly when no value holds a `#`. */
  lemma RoundTripExactly(config: RelayConfig)
    ensures FromFields(CutFields(Fields(config))) == Some(config) <==> !HasHash(config)
  {
    var r, s, p, t := config.relayUrl, config.secret, config.publicKey, TokenField(config.token);
    QueryCons(Field("secret", s), [Field("pk", p)] + t);
    QueryCons(Field("relay", r), [Field("secret", s)] + ([Field("pk", p)] + t));
    MissingField(Before(r, '#'), s);
    MissingField(r, Before(s, '#'));
    LastFieldsExactly(r, s, p, config.token);
  }

  // ------------------------------------------------------------ the printer

  method PairingUri(config: RelayConfig) returns (uri: string)
    ensures uri == PREFIX + Query(Fields(config))
    ensures ReadPairing(uri) == FromFields(CutFields(Fields(config)))
    ensures ReadPairing(uri) == Some(config) <==> !HasHash(config)
  {
    uri := PREFIX + ("relay=" + UrlEncoded(config.relayUrl)) + ("&secret=" + UrlEncoded(config.secret))
           + ("&pk=" + UrlEncoded(config.publicKey));
    if config.token.Some? {
      uri := uri + ("&token=" + UrlEncoded(config.token.value));
    }
    PrintedFields(config);
    ReadsBack(config);
    RoundTripExactly(config);
  }
}
