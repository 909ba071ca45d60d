/**
 * The `WWW-Authenticate` challenge parser. The source matches the global
 * regular expression `(?<==")(?:\\.|[^"\\])*(?=")` and keeps the first two
 * matches as realm and service; this module spells out that match as a
 * scanner over the characters.
 *
 * At a start position the expression needs `="` just before it, then takes
 * characters greedily: a backslash with any character but a line terminator
 * after it (the quoted-pair rule of section 3.2.6 of RFC 7230), or any one
 * character other than `"` and `\`. Each character can be taken by one
 * alternative only, so backtracking never finds a shorter match: a match
 * exists exactly when the greedy scan stops in front of a `"`. After an empty
 * match the search resumes one position further on.
 */
module Challenge {
  import opened Wrappers

  /** The two positional values of a challenge. */
  datatype AuthChallenge = AuthChallenge(realm: string, service: string)

  /** The characters `.` does not match. */
  predicate IsLineTerminator(c: char)
  {
    c == '\n' || c == '\r' || c == '\U{2028}' || c == '\U{2029}'
  }

  /** The text the body of the expression can take in full. */
  predicate IsQuotedText(t: string)
    decreases |t|
  {
    || t == []
    || (t[0] != '"' && t[0] != '\\' && IsQuotedText(t[1..]))
    || (|t| >= 2 && t[0] == '\\' && !IsLineTerminator(t[1]) && IsQuotedText(t[2..]))
  }

  /** The look-behind `(?<==")`: position `p` follows `="`. */
  predicate OpensValue(s: string, p: int)
  {
    2 <= p <= |s| && s[p - 2] == '=' && s[p - 1] == '"'
  }

  /**
   * Where the greedy scan from `p` stops: everything before is quoted text,
   * and the scan cannot go on at the stop.
   */
  function ScanEnd(s: string, p: nat): (e: nat)
    requires p <= |s|
    ensures p <= e <= |s|
    ensures IsQuotedText(s[p..e])
    ensures e == |s| || s[e] == '"' || (s[e] == '\\' && (e + 1 == |s| || IsLineTerminator(s[e + 1])))
    decreases |s| - p
  {
    if p < |s| && s[p] != '"' && s[p] != '\\' then
      var e := ScanEnd(s, p + 1);
      assert s[p..e][1..] == s[p + 1..e];
      e
    else if p + 1 < |s| && s[p] == '\\' && !IsLineTerminator(s[p + 1]) then
      var e := ScanEnd(s, p + 2);
      assert s[p..e][2..] == s[p + 2..e];
      e
    else
      p
  }

  /** The end of the match starting at `p`, which is the index of its closing `"`, if there is one. */
  function MatchAt(s: string, p: nat): (e: Option<nat>)
    requires p <= |s|
    ensures e.Some? ==> p <= e.value < |s| && s[e.value] == '"' && IsQuotedText(s[p..e.value])
    ensures e.Some? <==> OpensValue(s, p) && ScanEnd(s, p) < |s| && s[ScanEnd(s, p)] == '"'
  {
    if OpensValue(s, p) then
      var e := ScanEnd(s, p);
      if e < |s| && s[e] == '"' then Some(e) else None
    else
      None
  }

  /** All matches found by a search that starts at `p`, in order. */
  function MatchesFrom(s: string, p: nat): seq<string>
    requires p <= |s|
    decreases |s| - p
  {
    if p == |s| then []
    else
      match MatchAt(s, p)
      case Some(e) => [s[p..e]] + MatchesFrom(s, if e == p then p + 1 else e)
      case None => MatchesFrom(s, p + 1)
  }

  /** `parseAuthenticate`: the first two quoted values as realm and service, or `None` (`null`) when there are fewer. */
  function ParseAuthenticate(header: string): Option<AuthChallenge>
  {
    var ms := MatchesFrom(header, 0);
    if |ms| < 2 then None else Some(AuthChallenge(ms[0], ms[1]))
  }

  /** Every match of the search is quoted text. */
  lemma {:induction false} MatchesQuoted(s: string, p: nat)
    requires p <= |s|
    ensures forall m <- MatchesFrom(s, p) :: IsQuotedText(m)
    decreases |s| - p
  {
    if p < |s| {
      match MatchAt(s, p)
      case Some(e) => MatchesQuoted(s, if e == p then p + 1 else e);
      case None => MatchesQuoted(s, p + 1);
    }
  }

  /** A challenge in the form `Bearer realm="…",service="…"`. */
  function BearerChallenge(realm: string, service: string): string
  {
    "Bearer realm=\"" + realm + "\",service=\"" + service + "\""
  }

  /** Positions that do not follow `="` contribute nothing to the search. */
  lemma {:induction false} SkipClosed(s: string, p: nat, q: nat)
    requires p <= q <= |s|
    requires forall k :: p <= k < q ==> !OpensValue(s, k)
    ensures MatchesFrom(s, p) == MatchesFrom(s, q)
    decreases q - p
  {
    if p < q {
      SkipClosed(s, p + 1, q);
    }
  }

  /** A scan over quoted text stops at the `"` that follows it. */
  lemma {:induction false} ScanQuoted(s: string, p: nat, t: string)
    requires p + |t| < |s| && s[p..p + |t|] == t && s[p + |t|] == '"'
    requires IsQuotedText(t)
    ensures ScanEnd(s, p) == p + |t|
    decreases |t|
  {
    if t != [] {
      assert s[p] == t[0];
      if t[0] == '\\' {
        assert s[p + 1] == t[1];
        assert s[p + 2..p + |t|] == t[2..];
        ScanQuoted(s, p + 2, t[2..]);
      } else {
        assert s[p + 1..p + |t|] == t[1..];
        ScanQuoted(s, p + 1, t[1..]);
      }
    }
  }

  /** In quoted text every `"` is the escaped half of a backslash pair. */
  lemma {:induction false} QuoteIsEscaped(t: string, j: nat)
    requires IsQuotedText(t)
    requires j < |t| && t[j] == '"'
    ensures j >= 1 && t[j - 1] == '\\'
    decreases |t|
  {
    if t[0] == '\\' {
      if j >= 2 {
        QuoteIsEscaped(t[2..], j - 2);
      }
    } else {
      QuoteIsEscaped(t[1..], j - 1);
    }
  }

  /** A value opening at `a` and closed by the `"` after `t` is the next match. */
  lemma ValueAt(s: string, a: nat, t: string)
    requires OpensValue(s, a)
    requires a + |t| < |s| && s[a..a + |t|] == t && s[a + |t|] == '"'
    requires IsQuotedText(t)
    ensures MatchesFrom(s, a) == [t] + MatchesFrom(s, if t == [] then a + 1 else a + |t|)
  {
    ScanQuoted(s, a, t);
  }

  /** `="` does not occur within `s[lo..hi]`. */
  predicate NoOpeningIn(s: string, lo: int, hi: int)
  {
    forall j :: 0 <= lo <= j && j + 1 < hi <= |s| ==> !(s[j] == '=' && s[j + 1] == '"')
  }

  /** `="` does not occur in `t`. */
  predicate NoOpening(t: string)
  {
    NoOpeningIn(t, 0, |t|)
  }

  /** When `="` does not occur before the first `="`, the search skips to the value it opens. */
  lemma LeadClosed(s: string, a: nat)
    requires 2 <= a <= |s| && s[a - 2] == '='
    requires NoOpeningIn(s, 0, a - 2)
    ensures MatchesFrom(s, 0) == MatchesFrom(s, a)
  {
    forall k | 0 <= k < a
      ensures !OpensValue(s, k)
    {
      if 2 <= k && k - 1 < a - 2 {
        assert !(s[k - 2] == '=' && s[k - 1] == '"');
      }
    }
    SkipClosed(s, 0, a);
  }

  /** Text without `"` holds no `="`. */
  lemma QuoteFreeLead(s: string, a: nat)
    requires a <= |s|
    requires forall k :: 0 <= k < a ==> s[k] != '"'
    ensures NoOpeningIn(s, 0, a)
  {
  }

  /**
   * After a value not ending in `=`, no value opens before `b` when `="`
   * does not occur between the value's closing quote and `b - 1`.
   */
  lemma GapClosed(s: string, a1: nat, realm: string, b: nat)
    requires 2 <= a1 && a1 + |realm| < b <= |s|
    requires s[a1 - 1] == '"'
    requires s[a1..a1 + |realm|] == realm && s[a1 + |realm|] == '"'
    requires NoOpeningIn(s, a1 + |realm| + 1, b - 1)
    requires IsQuotedText(realm)
    requires realm == [] || realm[|realm| - 1] != '='
    ensures MatchesFrom(s, if realm == [] then a1 + 1 else a1 + |realm|) == MatchesFrom(s, b)
  {
    var q1 := a1 + |realm|;
    var n1 := if realm == [] then a1 + 1 else q1;
    forall k | n1 <= k < b
      ensures !OpensValue(s, k)
    {
      if k == q1 {
        if s[k - 1] == '"' {
          assert realm[|realm| - 1] == s[k - 1];
          QuoteIsEscaped(realm, |realm| - 1);
          assert s[k - 2] == realm[|realm| - 2];
        }
      } else if k == q1 + 1 {
        if realm != [] {
          assert s[k - 2] == realm[|realm| - 1];
        }
      } else if k > q1 + 2 {
        assert !(s[k - 2] == '=' && s[k - 1] == '"');
      }
    }
    SkipClosed(s, n1, b);
  }

  /** The first match of a header in which `="` first occurs just before `a1`. */
  lemma OpeningValue(s: string, a1: nat, realm: string)
    requires 2 <= a1 && a1 + |realm| < |s|
    requires NoOpeningIn(s, 0, a1 - 2)
    requires s[a1 - 2] == '=' && s[a1 - 1] == '"'
    requires s[a1..a1 + |realm|] == realm && s[a1 + |realm|] == '"'
    requires IsQuotedText(realm)
    ensures MatchesFrom(s, 0) == [realm] + MatchesFrom(s, if realm == [] then a1 + 1 else a1 + |realm|)
  {
    LeadClosed(s, a1);
    ValueAt(s, a1, realm);
  }

  /**
   * After a first value not ending in `=`, the next match is the value
   * opened by the next `="`.
   */
  lemma NextValue(s: string, a1: nat, realm: string, a2: nat, service: string)
    requires 2 <= a1 && a1 + |realm| + 3 <= a2 && a2 + |service| < |s|
    requires s[a1 - 1] == '"'
    requires s[a1..a1 + |realm|] == realm && s[a1 + |realm|] == '"'
    requires NoOpeningIn(s, a1 + |realm| + 1, a2 - 2)
    requires s[a2 - 2] == '=' && s[a2 - 1] == '"'
    requires s[a2..a2 + |service|] == service && s[a2 + |service|] == '"'
    requires IsQuotedText(realm) && IsQuotedText(service)
    requires realm == [] || realm[|realm| - 1] != '='
    ensures var n1 := if realm == [] then a1 + 1 else a1 + |realm|;
      |MatchesFrom(s, n1)| >= 1 && MatchesFrom(s, n1)[0] == service
  {
    GapClosed(s, a1, realm, a2 - 1);
    assert !OpensValue(s, a2 - 1);
    SkipClosed(s, a2 - 1, a2);
    ValueAt(s, a2, service);
  }

  /**
   * The search over a header laid out as: text without `="`, `="`, the
   * first value, `"`, text without `="`, `="`, the second value, `"`,
   * anything.
   */
  lemma TwoValues(s: string, a1: nat, realm: string, a2: nat, service: string)
    requires 2 <= a1 && a1 + |realm| + 3 <= a2 && a2 + |service| < |s|
    requires NoOpeningIn(s, 0, a1 - 2)
    requires s[a1 - 2] == '=' && s[a1 - 1] == '"'
    requires s[a1..a1 + |realm|] == realm && s[a1 + |realm|] == '"'
    requires NoOpeningIn(s, a1 + |realm| + 1, a2 - 2)
    requires s[a2 - 2] == '=' && s[a2 - 1] == '"'
    requires s[a2..a2 + |service|] == service && s[a2 + |service|] == '"'
    requires IsQuotedText(realm) && IsQuotedText(service)
    requires realm == [] || realm[|realm| - 1] != '='
    ensures |MatchesFrom(s, 0)| >= 2 && MatchesFrom(s, 0)[0] == realm && MatchesFrom(s, 0)[1] == service
  {
    OpeningValue(s, a1, realm);
    NextValue(s, a1, realm, a2, service);
  }

  /**
   * Realm and service are taken by position: the first two `="…"` values,
   * whatever the attribute names, with later values ignored. The text
   * before and between them may hold any `"` but no `="`. The first value
   * must not end in `=`, since then `="` is seen again right after its
   * closing quote.
   */
  lemma ParsePositional(pre: string, realm: string, mid: string, service: string, rest: string)
    requires NoOpening(pre) && NoOpening(mid)
    requires IsQuotedText(realm) && IsQuotedText(service)
    requires realm == [] || realm[|realm| - 1] != '='
    ensures ParseAuthenticate(pre + "=\"" + realm + "\"" + mid + "=\"" + service + "\"" + rest)
         == Some(AuthChallenge(realm, service))
  {
    var head := pre + "=\"" + realm + "\"" + mid + "=\"";
    var s := head + (service + "\"" + rest);
    assert s == pre + "=\"" + realm + "\"" + mid + "=\"" + service + "\"" + rest;
    var a1 := |pre| + 2;
    var q1 := a1 + |realm|;
    var a2 := |head|;
    assert head[a1..q1] == realm;
    forall j | 0 <= j && j + 1 < a1 - 2
      ensures !(s[j] == '=' && s[j + 1] == '"')
    {
      assert s[j] == pre[j] && s[j + 1] == pre[j + 1];
    }
    forall j | q1 + 1 <= j && j + 1 < a2 - 2
      ensures !(s[j] == '=' && s[j + 1] == '"')
    {
      assert s[j] == mid[j - q1 - 1] && s[j + 1] == mid[j - q1];
    }
    TwoValues(s, a1, realm, a2, service);
  }

  /** Where the parts of `BearerChallenge(realm, service) + rest` sit. */
  lemma BearerLayout(realm: string, service: string, rest: string)
    ensures var s, q1 := BearerChallenge(realm, service) + rest, 14 + |realm|;
      && |s| == q1 + 12 + |service| + |rest|
      && (forall k :: 0 <= k < 12 ==> s[k] != '"')
      && s[12] == '=' && s[13] == '"' && s[14..q1] == realm && s[q1] == '"'
      && s[q1 + 1..q1 + 10] == ",service=" && s[q1 + 10] == '"'
      && s[q1 + 11..q1 + 11 + |service|] == service && s[q1 + 11 + |service|] == '"'
  {
    BearerOpening(realm, service, rest);
    BearerValues(realm, service, rest);
    BearerMiddle(realm, service, rest);
  }

  /** `BearerChallenge(realm, service) + rest` starts with `Bearer realm="`. */
  lemma BearerOpening(realm: string, service: string, rest: string)
    ensures var s := BearerChallenge(realm, service) + rest;
      && |s| == 26 + |realm| + |service| + |rest|
      && (forall k :: 0 <= k < 12 ==> s[k] != '"')
      && s[12] == '=' && s[13] == '"'
  {
    var opening := "Bearer realm=\"";
    var s := BearerChallenge(realm, service) + rest;
    forall k | 0 <= k < 14
      ensures s[k] == opening[k]
    {
    }
  }

  /** The realm and the service sit between their quotes in `BearerChallenge(realm, service) + rest`. */
  lemma BearerValues(realm: string, service: string, rest: string)
    ensures var s, q1 := BearerChallenge(realm, service) + rest, 14 + |realm|;
      && |s| == q1 + 12 + |service| + |rest|
      && s[14..q1] == realm && s[q1] == '"'
      && s[q1 + 11..q1 + 11 + |service|] == service && s[q1 + 11 + |service|] == '"'
  {
    var s, q1 := BearerChallenge(realm, service) + rest, 14 + |realm|;
    forall i | 0 <= i < |realm|
      ensures s[14 + i] == realm[i]
    {
    }
    assert s[14..q1] == realm;
    forall i | 0 <= i < |service|
      ensures s[q1 + 11 + i] == service[i]
    {
    }
    assert s[q1 + 11..q1 + 11 + |service|] == service;
  }

  /** Between the realm and the service stands `",service="`. */
  lemma BearerMiddle(realm: string, service: string, rest: string)
    ensures var s, q1 := BearerChallenge(realm, service) + rest, 14 + |realm|;
      && |s| == q1 + 12 + |service| + |rest|
      && s[q1 + 1..q1 + 10] == ",service=" && s[q1 + 10] == '"'
  {
    var middle := "\",service=\"";
    var s, q1 := BearerChallenge(realm, service) + rest, 14 + |realm|;
    forall i | 0 <= i < 11
      ensures s[q1 + i] == middle[i]
    {
    }
    assert s[q1 + 1..q1 + 10] == middle[1..10];
  }

  /** The gateway's own challenge form reads back as the realm and service it was built from. */
  lemma BearerRoundTrip(realm: string, service: string, rest: string)
    requires IsQuotedText(realm) && IsQuotedText(service)
    requires realm == [] || realm[|realm| - 1] != '='
    ensures ParseAuthenticate(BearerChallenge(realm, service) + rest) == Some(AuthChallenge(realm, service))
  {
    var s, q1 := BearerChallenge(realm, service) + rest, 14 + |realm|;
    BearerLayout(realm, service, rest);
    QuoteFreeLead(s, 12);
    forall k | q1 + 1 <= k < q1 + 10
      ensures s[k] != '"'
    {
      assert s[k] == s[q1 + 1..q1 + 10][k - q1 - 1];
    }
    TwoValues(s, 14, realm, q1 + 11, service);
  }

  /** Text without `"` and `\` is quoted text. */
  lemma {:induction false} PlainIsQuoted(t: string)
    requires '"' !in t && '\\' !in t
    ensures IsQuotedText(t)
    decreases |t|
  {
    if t != [] {
      assert t[0] in t;
      PlainIsQuoted(t[1..]);
    }
  }

  /** A header in which `="` never occurs yields no challenge. */
  lemma NoValueNoChallenge(header: string)
    requires NoOpening(header)
    ensures ParseAuthenticate(header) == None
  {
    forall k | 0 <= k < |header|
      ensures !OpensValue(header, k)
    {
      if 2 <= k {
        assert !(header[k - 2] == '=' && header[k - 1] == '"');
      }
    }
    SkipClosed(header, 0, |header|);
  }

  /**
   * A header with one `="…"` value and no other `="` yields no challenge:
   * a single match is too few, as for `Basic realm="…"`.
   */
  lemma OneValueNoChallenge(pre: string, realm: string, rest: string)
    requires NoOpening(pre) && NoOpening(rest)
    requires IsQuotedText(realm)
    requires realm == [] || realm[|realm| - 1] != '='
    ensures ParseAuthenticate(pre + "=\"" + realm + "\"" + rest) == None
  {
    var s := pre + "=\"" + realm + "\"" + rest;
    var a1 := |pre| + 2;
    var q1 := a1 + |realm|;
    assert s[a1..q1] == realm;
    forall j | 0 <= j && j + 1 < a1 - 2
      ensures !(s[j] == '=' && s[j + 1] == '"')
    {
      assert s[j] == pre[j] && s[j + 1] == pre[j + 1];
    }
    forall j | q1 + 1 <= j && j + 1 < |s| - 1
      ensures !(s[j] == '=' && s[j + 1] == '"')
    {
      assert s[j] == rest[j - q1 - 1] && s[j + 1] == rest[j - q1];
    }
    OpeningValue(s, a1, realm);
    GapClosed(s, a1, realm, |s|);
  }

  /** The challenge of HTTP Basic authentication has one value, so it yields no challenge. */
  lemma BasicExample()
    ensures ParseAuthenticate("Basic realm=\"Registry\"") == None
  {
    BasicParts();
    OneValueNoChallenge("Basic realm", "Registry", "");
    assert "Basic realm" + "=\"" + "Registry" + "\"" + "" == "Basic realm=\"Registry\"";
  }

  /** The parts of the Basic example meet the conditions of `OneValueNoChallenge`. */
  lemma BasicParts()
    ensures NoOpening("Basic realm") && NoOpening("")
    ensures IsQuotedText("Registry") && "Registry"[|"Registry"| - 1] != '='
  {
    QuoteFreeLead("Basic realm", |"Basic realm"|);
    PlainIsQuoted("Registry");
  }

  /** The first value of a header whose text before its `="` holds no `"`. */
  lemma FirstValue(s: string, a1: nat, realm: string)
    requires 2 <= a1 && a1 + |realm| < |s|
    requires forall k :: 0 <= k < a1 - 2 ==> s[k] != '"'
    requires s[a1 - 2] == '=' && s[a1 - 1] == '"'
    requires s[a1..a1 + |realm|] == realm && s[a1 + |realm|] == '"'
    requires IsQuotedText(realm) && realm != []
    ensures MatchesFrom(s, 0) == [realm] + MatchesFrom(s, a1 + |realm|)
  {
    QuoteFreeLead(s, a1 - 2);
    OpeningValue(s, a1, realm);
  }

  /**
   * The search over a header laid out as: text without `"`, `="`, a value
   * ending in `=`, `"`, a tail without `"` and `\`, `"`: the first match is
   * the value, the second the tail.
   */
  lemma ValueThenTail(s: string, a1: nat, realm: string, tail: string)
    requires 2 <= a1 && a1 + |realm| + |tail| + 1 < |s|
    requires forall k :: 0 <= k < a1 - 2 ==> s[k] != '"'
    requires s[a1 - 2] == '=' && s[a1 - 1] == '"'
    requires s[a1..a1 + |realm|] == realm && s[a1 + |realm|] == '"'
    requires IsQuotedText(realm) && realm != [] && realm[|realm| - 1] == '='
    requires s[a1 + |realm| + 1..a1 + |realm| + 1 + |tail|] == tail
    requires '"' !in tail && '\\' !in tail && s[a1 + |realm| + 1 + |tail|] == '"'
    ensures |MatchesFrom(s, 0)| >= 2 && MatchesFrom(s, 0)[0] == realm && MatchesFrom(s, 0)[1] == tail
  {
    var q1 := a1 + |realm|;
    assert s[q1 - 1] == '=' by {
      assert s[q1 - 1] == s[a1..q1][|realm| - 1];
    }
    TailValue(s, q1, tail);
    FirstValue(s, a1, realm);
  }

  /**
   * At the closing quote of a value ending in `=`, a new value opens; when
   * it holds no `"` and no `\` and a `"` follows, it is the next match.
   */
  lemma TailValue(s: string, q: nat, tail: string)
    requires 1 <= q && q + 1 + |tail| < |s| && s[q - 1] == '=' && s[q] == '"'
    requires s[q + 1..q + 1 + |tail|] == tail && s[q + 1 + |tail|] == '"'
    requires '"' !in tail && '\\' !in tail
    ensures |MatchesFrom(s, q)| >= 1 && MatchesFrom(s, q)[0] == tail
  {
    assert !OpensValue(s, q);
    SkipClosed(s, q, q + 1);
    PlainIsQuoted(tail);
    ValueAt(s, q + 1, tail);
  }

  /**
   * A realm ending in `=` is followed by `="` once more (its own `=` and its
   * closing quote), so the text from there to the service's opening quote
   * is taken as the service.
   */
  lemma RealmEndingInEquals(value: string, service: string, rest: string)
    requires IsQuotedText(value)
    ensures ParseAuthenticate(BearerChallenge(value + "=", service) + rest) == Some(AuthChallenge(value + "=", ",service="))
  {
    var realm := value + "=";
    QuotedAppend(value, "=");
    var s, q1 := BearerChallenge(realm, service) + rest, 14 + |realm|;
    BearerLayout(realm, service, rest);
    var tail := ",service=";
    assert '"' !in tail && '\\' !in tail;
    ValueThenTail(s, 14, realm, tail);
  }

  /** Quoted text followed by quoted text is quoted text. */
  lemma {:induction false} QuotedAppend(t: string, u: string)
    requires IsQuotedText(t) && IsQuotedText(u)
    ensures IsQuotedText(t + u)
    decreases |t|
  {
    if t == [] {
      assert t + u == u;
    } else if t[0] == '\\' {
      QuotedAppend(t[2..], u);
      assert (t + u)[2..] == t[2..] + u;
    } else {
      QuotedAppend(t[1..], u);
      assert (t + u)[1..] == t[1..] + u;
    }
  }

  /** The realm and service of an ordinary Docker registry challenge. */
  lemma RegistryExample()
    ensures ParseAuthenticate(BearerChallenge("https://auth.docker.io/token", "registry.docker.io"))
         == Some(AuthChallenge("https://auth.docker.io/token", "registry.docker.io"))
  {
    var realm, service := "https://auth.docker.io/token", "registry.docker.io";
    RegistryRealmQuoted();
    RegistryServiceQuoted();
    BearerRoundTrip(realm, service, "");
    assert BearerChallenge(realm, service) + "" == BearerChallenge(realm, service);
  }

  /** The example's realm is quoted text that does not end in `=`. */
  lemma RegistryRealmQuoted()
    ensures IsQuotedText("https://auth.docker.io/token")
    ensures "https://auth.docker.io/token"[|"https://auth.docker.io/token"| - 1] != '='
  {
    var realm := "https://auth.docker.io/token";
    assert '"' !in realm && '\\' !in realm;
    PlainIsQuoted(realm);
  }

  /** The example's service is quoted text. */
  lemma RegistryServiceQuoted()
    ensures IsQuotedText("registry.docker.io")
  {
    var service := "registry.docker.io";
    assert '"' !in service && '\\' !in service;
    PlainIsQuoted(service);
  }

  /** A header with no quoted value yields no challenge. */
  lemma GarbageExample()
    ensures ParseAuthenticate("garbage") == None
  {
    NoValueNoChallenge("garbage");
  }
}
