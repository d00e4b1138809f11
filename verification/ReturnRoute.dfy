/** Return routes of browser payment redirects: a normaliser for untrusted routes and the builder of
    the redirect. */
module ReturnRoute {
  import opened Tables
  import opened Text
  import opened FormUrl

  datatype Channel = Web | TelegramApp

  datatype PaymentState = Success | Fail

  const WEB_PATHS := ["/app", "/app/new", "/app/history", "/app/wallet"]
  const TELEGRAM_PATHS := ["/t", "/t/"]
  const QUERY_KEYS := ["market", "utm_source", "utm_medium", "utm_campaign", "utm_content", "utm_term"]
  const MAX_VALUE_LENGTH := 256

  /** str.lower() as far as it can produce a channel name. */
  function Lower(s: string): (r: string)
    ensures |r| == |s|
  {
    seq(|s|, i requires 0 <= i < |s| => if 'A' <= s[i] <= 'Z' then (s[i] as int + 32) as char else s[i])
  }

  /** `normalize_client_channel` */
  function NormalizeClientChannel(value: string): Option<Channel> {
    var normalized := Lower(Strip(value));
    if normalized == "web" then Some(Web) else if normalized == "telegram" then Some(TelegramApp) else None
  }

  predicate HasControl(s: string) {
    exists i :: 0 <= i < |s| && s[i] as int < 0x20
  }

  /** str.rstrip("/") */
  function TrimSlashes(s: string): string {
    if s != [] && s[|s| - 1] == '/' then TrimSlashes(s[..|s| - 1]) else s
  }

  /** The path a route asks for, once the route is known to be a plain internal one. */
  function InternalTarget(raw: string): Option<(string, string)> {
    var u := UrlSplit(raw);
    if raw == "" || HasControl(raw) || '\\' in raw then None
    else if u.scheme != "" || u.netloc != "" || StartsWith(raw, "//") then None
    else if u.fragment != "" || !StartsWith(u.path, "/") || '%' in u.path then None
    else if "." in SplitOn(u.path, '/') || ".." in SplitOn(u.path, '/') then None
    else Some((u.path, u.query))
  }

  /** The canonical form of an allowed path. */
  function AllowedPath(requested: string, channel: Channel): Option<string> {
    var path := if TrimSlashes(requested) == "" then "/" else TrimSlashes(requested);
    if channel == Web then if path in WEB_PATHS then Some(path) else None
    else if path in TELEGRAM_PATHS then Some("/t/") else None
  }

  predicate ValueOk(value: string) {
    value != "" && |value| <= MAX_VALUE_LENGTH && !HasControl(value)
  }

  /** The dictionary the pairs of a query fill; None where the source raises. */
  function Collect(pairs: Pairs): Option<map<string, string>> {
    if pairs == [] then Some(map[])
    else
      var (key, value) := pairs[|pairs| - 1];
      match Collect(pairs[..|pairs| - 1])
      case None => None
      case Some(values) =>
        if key !in QUERY_KEYS || key in values || !ValueOk(value) then None else Some(values[key := value])
  }

  /** [(key, values[key]) for key in keys if key in values] */
  function InKeyOrder(values: map<string, string>, keys: seq<string>): Pairs {
    if keys == [] then []
    else
      var key := keys[|keys| - 1];
      InKeyOrder(values, keys[..|keys| - 1]) + (if key in values then [(key, values[key])] else [])
  }

  function Route(path: string, pairs: Pairs): string {
    if UrlEncode(pairs) == "" then path else path + "?" + UrlEncode(pairs)
  }

  /** Path and query values of an accepted route. */
  function NormalizeParts(value: string, channel: Channel): Option<(string, map<string, string>)> {
    match InternalTarget(Strip(value))
    case None => None
    case Some((requested, query)) =>
      match (AllowedPath(requested, channel), ParseQsl(query))
      case (Some(path), Some(pairs)) =>
        if channel == TelegramApp && pairs != [] then None
        else (match Collect(pairs) case Some(values) => Some((path, values)) case None => None)
      case _ => None
  }

  /** `normalize_return_to`; None where it raises. */
  function Normalize(value: string, channel: Channel): Option<string> {
    match NormalizeParts(value, channel)
    case Some((path, values)) => Some(Route(path, InKeyOrder(values, QUERY_KEYS)))
    case None => None
  }

  // ------------------------------------------------------------------ as it runs

  lemma {:induction false} CollectFails(pairs: Pairs, n: nat)
    requires n <= |pairs| && Collect(pairs[..n]).None?
    ensures Collect(pairs).None?
    decreases |pairs|
  {
    if n < |pairs| {
      assert pairs[..|pairs| - 1][..n] == pairs[..n];
      CollectFails(pairs[..|pairs| - 1], n);
    } else {
      assert pairs[..n] == pairs;
    }
  }

  /** The loop over the pairs, with its early exits. */
  method CollectValues(pairs: Pairs) returns (values: Option<map<string, string>>)
    ensures values == Collect(pairs)
  {
    var filled: map<string, string> := map[];
    for i := 0 to |pairs|
      invariant Collect(pairs[..i]) == Some(filled)
    {
      assert pairs[..i + 1][..i] == pairs[..i];
      var (key, value) := pairs[i];
      if key !in QUERY_KEYS || key in filled || value == "" {
        CollectFails(pairs, i + 1);
        return None;
      }
      if |value| > MAX_VALUE_LENGTH || HasControl(value) {
        CollectFails(pairs, i + 1);
        return None;
      }
      filled := filled[key := value];
    }
    assert pairs[..|pairs|] == pairs;
    values := Some(filled);
  }

  method NormalizeReturnTo(value: string, clientChannel: string) returns (route: Option<string>)
    ensures route == match NormalizeClientChannel(clientChannel)
                     case None => None
                     case Some(channel) => Normalize(value, channel)
  {
    var found := NormalizeClientChannel(clientChannel);
    if found.None? {
      return None;
    }
    var channel := found.value;
    var target := InternalTarget(Strip(value));
    if target.None? {
      return None;
    }
    var path := AllowedPath(target.value.0, channel);
    if path.None? {
      return None;
    }
    var pairs := ParseQsl(target.value.1);
    if pairs.None? || (channel == TelegramApp && pairs.value != []) {
      return None;
    }
    var values := CollectValues(pairs.value);
    if values.None? {
      return None;
    }
    route := Some(Route(path.value, InKeyOrder(values.value, QUERY_KEYS)));
  }

  // -------------------------------------------------------------- accepted routes

  predicate OutputPath(path: string, channel: Channel) {
    if channel == Web then path in WEB_PATHS else path == "/t/"
  }

  /** Distinct allowlisted keys with acceptable values; none for Telegram. */
  predicate OutputValues(values: map<string, string>, channel: Channel) {
    && (forall key :: key in values ==> key in QUERY_KEYS && ValueOk(values[key]))
    && (channel == TelegramApp ==> values == map[])
  }

  lemma {:induction false} CollectedValues(pairs: Pairs)
    ensures Collect(pairs).Some? ==> forall key :: key in Collect(pairs).value ==> key in QUERY_KEYS && ValueOk(Collect(pairs).value[key])
  {
    if pairs != [] { CollectedValues(pairs[..|pairs| - 1]); }
  }

  lemma PartsAreAllowed(value: string, channel: Channel)
    requires NormalizeParts(value, channel).Some?
    ensures var (path, values) := NormalizeParts(value, channel).value;
      OutputPath(path, channel) && OutputValues(values, channel)
  {
    var (requested, query) := InternalTarget(Strip(value)).value;
    CollectedValues(ParseQsl(query).value);
  }

  /** `pairs` have keys of `keys` in their order there, each once. */
  predicate Canonical(pairs: Pairs, keys: seq<string>) {
    if keys == [] then pairs == []
    else
      var key, rest := keys[|keys| - 1], keys[..|keys| - 1];
      if pairs != [] && pairs[|pairs| - 1].0 == key then Canonical(pairs[..|pairs| - 1], rest) else Canonical(pairs, rest)
  }

  lemma {:induction false} InKeyOrderShape(values: map<string, string>, keys: seq<string>)
    requires forall i, k :: 0 <= i < k < |keys| ==> keys[i] != keys[k]
    ensures var pairs := InKeyOrder(values, keys);
      && Canonical(pairs, keys)
      && forall i :: 0 <= i < |pairs| ==> pairs[i].0 in keys && pairs[i].0 in values && values[pairs[i].0] == pairs[i].1
  {
    if keys != [] {
      var n := |keys| - 1;
      InKeyOrderShape(values, keys[..n]);
      var pairs := InKeyOrder(values, keys[..n]);
      assert keys[n] !in keys[..n];
      if keys[n] in values {
        assert (pairs + [(keys[n], values[keys[n]])])[..|pairs|] == pairs;
      } else {
        assert pairs + [] == pairs;
      }
    }
  }

  predicate AllowedPairs(pairs: Pairs) {
    Canonical(pairs, QUERY_KEYS) && forall i :: 0 <= i < |pairs| ==> pairs[i].0 in QUERY_KEYS && ValueOk(pairs[i].1)
  }

  lemma AllowedInKeyOrder(values: map<string, string>, channel: Channel)
    requires OutputValues(values, channel)
    ensures AllowedPairs(InKeyOrder(values, QUERY_KEYS))
    ensures channel == TelegramApp ==> InKeyOrder(values, QUERY_KEYS) == []
  {
    InKeyOrderShape(values, QUERY_KEYS);
  }

  /** The values named by the first keys. */
  function Restrict(values: map<string, string>, keys: seq<string>): map<string, string> {
    map key | key in values && key in keys :: values[key]
  }

  lemma RestrictStep(values: map<string, string>, keys: seq<string>)
    requires keys != []
    ensures var n := |keys| - 1;
      Restrict(values, keys) == if keys[n] in values then Restrict(values, keys[..n])[keys[n] := values[keys[n]]] else Restrict(values, keys[..n])
  {
    assert keys == keys[..|keys| - 1] + [keys[|keys| - 1]];
  }

  lemma CollectLast(pairs: Pairs, key: string, value: string, values: map<string, string>)
    requires Collect(pairs) == Some(values) && key in QUERY_KEYS && key !in values && ValueOk(value)
    ensures Collect(pairs + [(key, value)]) == Some(values[key := value])
  {
    assert (pairs + [(key, value)])[..|pairs|] == pairs;
  }

  lemma {:induction false} CollectInKeyOrder(values: map<string, string>, keys: seq<string>)
    requires forall i, k :: 0 <= i < k < |keys| ==> keys[i] != keys[k]
    requires forall i :: 0 <= i < |keys| ==> keys[i] in QUERY_KEYS
    requires forall key :: key in values ==> ValueOk(values[key])
    ensures Collect(InKeyOrder(values, keys)) == Some(Restrict(values, keys))
  {
    if keys == [] {
      assert Restrict(values, keys) == map[];
    } else {
      var n := |keys| - 1;
      var pairs := InKeyOrder(values, keys[..n]);
      CollectInKeyOrder(values, keys[..n]);
      RestrictStep(values, keys);
      if keys[n] in values {
        CollectLast(pairs, keys[n], values[keys[n]], Restrict(values, keys[..n]));
      } else {
        assert pairs + [] == pairs;
      }
    }
  }

  // ---------------------------------------------------------- a route read again

  lemma {:induction false} SplitAvoids(s: string, c: char, x: char)
    requires x !in s
    ensures forall field :: field in SplitOn(s, c) ==> x !in field
    decreases |s|
  {
    var i := Find(s, c);
    if i < |s| {
      SplitAvoids(s[i + 1..], c, x);
    }
  }

  predicate PathChar(c: char) {
    c == '/' || 'a' <= c <= 'z'
  }

  /** What the allowed paths have in common. */
  lemma PathShape(path: string, channel: Channel)
    requires OutputPath(path, channel)
    ensures forall c :: c in path ==> PathChar(c)
    ensures |path| >= 3 && path[0] == '/' && path[1] != '/'
    ensures AllowedPath(path, channel) == Some(path)
  {
    if channel == TelegramApp {
      assert path[..2] == "/t";
      assert TrimSlashes(path) == TrimSlashes("/t");
    }
  }

  lemma NoDots(path: string)
    requires forall c :: c in path ==> PathChar(c)
    ensures "." !in SplitOn(path, '/') && ".." !in SplitOn(path, '/')
  {
    SplitAvoids(path, '/', '.');
    assert "."[0] == '.' && ".."[0] == '.';
  }

  predicate RouteChar(c: char) {
    PathChar(c) || c == '?' || QueryChar(c)
  }

  lemma RouteChars(path: string, pairs: Pairs)
    requires forall c :: c in path ==> PathChar(c)
    ensures forall c :: c in Route(path, pairs) ==> RouteChar(c)
  {
    EncodedChars(pairs);
  }

  lemma PlainText(s: string)
    requires s != "" && forall c :: c in s ==> RouteChar(c)
    ensures Strip(s) == s && !HasControl(s) && '\\' !in s && '#' !in s
  {
    StripIsTrimmed(s);
    forall i | 0 <= i < |s| ensures s[i] as int > 0x20 && !IsSpace(s[i]) {
      assert RouteChar(s[i]);
    }
  }

  lemma SplitRelative(s: string)
    requires |s| >= 2 && s[0] == '/' && s[1] != '/'
    ensures UrlSplit(s) == var (path, query, fragment) := SplitTarget(s); Url("", "", path, query, fragment)
    ensures !StartsWith(s, "//")
  {
    assert s[0..] == s;
    assert s[..2][1] == s[1];
  }

  lemma SplitRoute(path: string, pairs: Pairs)
    requires forall c :: c in path ==> PathChar(c)
    requires |path| >= 3 && path[0] == '/' && path[1] != '/'
    ensures UrlSplit(Route(path, pairs)) == Url("", "", path, UrlEncode(pairs), "")
    ensures !StartsWith(Route(path, pairs), "//")
  {
    EncodedChars(pairs);
    SplitTargetOf(path, UrlEncode(pairs));
    SplitRelative(Route(path, pairs));
  }

  lemma RouteIsInternal(path: string, pairs: Pairs)
    requires forall c :: c in path ==> PathChar(c)
    requires |path| >= 3 && path[0] == '/' && path[1] != '/'
    ensures Strip(Route(path, pairs)) == Route(path, pairs)
    ensures InternalTarget(Route(path, pairs)) == Some((path, UrlEncode(pairs)))
  {
    RouteChars(path, pairs);
    PlainText(Route(path, pairs));
    SplitRoute(path, pairs);
    NoDots(path);
    assert StartsWith(path, "/");
  }

  lemma ValuesReadBack(values: map<string, string>, channel: Channel)
    requires OutputValues(values, channel)
    ensures var pairs := InKeyOrder(values, QUERY_KEYS);
      && ParseQsl(UrlEncode(pairs)) == Some(pairs) && Collect(pairs) == Some(values)
      && (channel == TelegramApp ==> pairs == [])
  {
    ParseEncoded(InKeyOrder(values, QUERY_KEYS));
    CollectInKeyOrder(values, QUERY_KEYS);
    assert Restrict(values, QUERY_KEYS) == values;
    InKeyOrderShape(values, QUERY_KEYS);
  }

  /** A route built from an allowed path and acceptable values is accepted, and read as just these. */
  lemma RouteReadsBack(path: string, values: map<string, string>, channel: Channel)
    requires OutputPath(path, channel) && OutputValues(values, channel)
    ensures NormalizeParts(Route(path, InKeyOrder(values, QUERY_KEYS)), channel) == Some((path, values))
  {
    PathShape(path, channel);
    RouteIsInternal(path, InKeyOrder(values, QUERY_KEYS));
    ValuesReadBack(values, channel);
  }

  // ------------------------------------------------------------------ theorems

  /** What comes out of the normaliser is an allowlisted path with allowlisted keys, each once and in
      canonical order, with acceptable values. */
  lemma NormalizedShape(value: string, channel: Channel)
    requires Normalize(value, channel).Some?
    ensures NormalizeParts(value, channel).Some?
    ensures var (path, values) := NormalizeParts(value, channel).value;
      var pairs := InKeyOrder(values, QUERY_KEYS);
      && Normalize(value, channel).value == Route(path, pairs)
      && OutputPath(path, channel) && AllowedPairs(pairs)
      && (channel == TelegramApp ==> pairs == [])
  {
    PartsAreAllowed(value, channel);
    var (path, values) := NormalizeParts(value, channel).value;
    AllowedInKeyOrder(values, channel);
  }

  /** Normalising twice is normalising once. */
  lemma NormalizeIdempotent(value: string, channel: Channel)
    requires Normalize(value, channel).Some?
    ensures Normalize(Normalize(value, channel).value, channel) == Normalize(value, channel)
  {
    PartsAreAllowed(value, channel);
    var (path, values) := NormalizeParts(value, channel).value;
    RouteReadsBack(path, values, channel);
  }

  // ------------------------------------------------------------- what is accepted

  /** Market or one of the five utm keys, with a short printable value. */
  predicate AllowedPair(pair: (string, string)) {
    && pair.0 in {"market", "utm_source", "utm_medium", "utm_campaign", "utm_content", "utm_term"}
    && 0 < |pair.1| <= 256 && forall k :: 0 <= k < |pair.1| ==> pair.1[k] as int >= 0x20
  }

  /** Only allowed pairs, no key twice. */
  predicate AllowedQuery(pairs: Pairs) {
    && (forall i :: 0 <= i < |pairs| ==> AllowedPair(pairs[i]))
    && (forall i, k :: 0 <= i < k < |pairs| ==> pairs[i].0 != pairs[k].0)
  }

  predicate HasName(pairs: Pairs, key: string) {
    exists i :: 0 <= i < |pairs| && pairs[i].0 == key
  }

  /** `values` are what the pairs say. */
  predicate FilledFrom(values: map<string, string>, pairs: Pairs) {
    && (forall i :: 0 <= i < |pairs| ==> pairs[i].0 in values && values[pairs[i].0] == pairs[i].1)
    && (forall key :: key in values ==> HasName(pairs, key))
  }

  lemma AllowedPairIs(pair: (string, string))
    ensures AllowedPair(pair) <==> pair.0 in QUERY_KEYS && ValueOk(pair.1)
  {
  }

  lemma AllowedStep(pairs: Pairs, last: (string, string))
    ensures AllowedQuery(pairs + [last]) <==> AllowedQuery(pairs) && AllowedPair(last) && !HasName(pairs, last.0)
  {
    var all := pairs + [last];
    assert forall i :: 0 <= i < |pairs| ==> all[i] == pairs[i];
    assert all[|pairs|] == last;
  }

  lemma FilledStep(values: map<string, string>, pairs: Pairs, last: (string, string))
    requires FilledFrom(values, pairs) && last.0 !in values
    ensures FilledFrom(values[last.0 := last.1], pairs + [last])
  {
    var all := pairs + [last];
    assert forall i :: 0 <= i < |pairs| ==> all[i] == pairs[i];
    forall key | key in values[last.0 := last.1] ensures HasName(all, key) {
      if key == last.0 {
        assert all[|pairs|].0 == key;
      } else {
        var i :| 0 <= i < |pairs| && pairs[i].0 == key;
        assert all[i].0 == key;
      }
    }
  }

  lemma FilledHas(values: map<string, string>, pairs: Pairs, key: string)
    requires FilledFrom(values, pairs)
    ensures key in values <==> HasName(pairs, key)
  {
  }

  /** The dictionary is filled exactly from the pairs of an allowed query. */
  lemma {:induction false} CollectAnswers(pairs: Pairs)
    ensures Collect(pairs).Some? <==> AllowedQuery(pairs)
    ensures Collect(pairs).Some? ==> FilledFrom(Collect(pairs).value, pairs)
  {
    if pairs != [] {
      var (init, last) := (pairs[..|pairs| - 1], pairs[|pairs| - 1]);
      CollectAnswers(init);
      assert pairs == init + [last];
      AllowedStep(init, last);
      AllowedPairIs(last);
      if Collect(init).Some? {
        FilledHas(Collect(init).value, init, last.0);
        if last.0 !in Collect(init).value { FilledStep(Collect(init).value, init, last); }
      }
    }
  }

  /** A stripped route that stays within the site: nothing but a path from the root and a query. */
  predicate StaysInside(s: string) {
    var u := UrlSplit(s);
    && s != "" && (forall i :: 0 <= i < |s| ==> s[i] as int >= 0x20 && s[i] != '\\')
    && u.scheme == "" && u.netloc == "" && u.fragment == "" && !StartsWith(s, "//")
    && StartsWith(u.path, "/") && '%' !in u.path
    && forall segment :: segment in SplitOn(u.path, '/') ==> segment != "." && segment != ".."
  }

  lemma StaysInsideIs(s: string)
    ensures InternalTarget(s) == if StaysInside(s) then Some((UrlSplit(s).path, UrlSplit(s).query)) else None
  {
  }

  /** The pages a route may lead to, with or without slashes after them. */
  predicate AllowedPage(path: string, channel: Channel) {
    if channel == Web then TrimSlashes(path) in {"/app", "/app/new", "/app/history", "/app/wallet"} else TrimSlashes(path) == "/t"
  }

  lemma {:induction false} TrimmedEnds(s: string)
    ensures var r := TrimSlashes(s);
      r == "" || r[|r| - 1] != '/'
  {
    if s != [] && s[|s| - 1] == '/' { TrimmedEnds(s[..|s| - 1]); }
  }

  lemma AllowedPageIs(path: string, channel: Channel)
    ensures AllowedPath(path, channel)
         == if !AllowedPage(path, channel) then None else Some(if channel == Web then TrimSlashes(path) else "/t/")
  {
    TrimmedEnds(path);
    assert "/t/"[2] == '/';
  }

  /** A query the route may carry. */
  predicate AllowedTail(query: string, channel: Channel) {
    ParseQsl(query).Some? && AllowedQuery(ParseQsl(query).value) && (channel == TelegramApp ==> ParseQsl(query).value == [])
  }

  /** Exactly which routes are accepted, and which page and query values they are read as. */
  lemma NormalizeAnswers(value: string, channel: Channel)
    ensures var u := UrlSplit(Strip(value));
      var accepted := StaysInside(Strip(value)) && AllowedPage(u.path, channel) && AllowedTail(u.query, channel);
      && (Normalize(value, channel).Some? <==> accepted) && (NormalizeParts(value, channel).Some? <==> accepted)
      && (accepted ==> (var (path, values) := NormalizeParts(value, channel).value;
            path == (if channel == Web then TrimSlashes(u.path) else "/t/") && FilledFrom(values, ParseQsl(u.query).value)))
  {
    var u := UrlSplit(Strip(value));
    StaysInsideIs(Strip(value));
    AllowedPageIs(u.path, channel);
    if ParseQsl(u.query).Some? { CollectAnswers(ParseQsl(u.query).value); }
  }

  /** The fallback is used exactly when channel or route is refused, and is the channel's own start page. */
  lemma FallbackAnswers(clientChannel: Option<string>, returnTo: Option<string>)
    ensures var (route, channel, fallback) := SafeContext(clientChannel, returnTo);
      var (asked, wish) := (NormalizeClientChannel(if clientChannel.Some? then clientChannel.value else ""), if returnTo.Some? then returnTo.value else "");
      && channel == (if asked.Some? then asked.value else Web)
      && (fallback <==> asked.None? || Normalize(wish, channel).None?)
      && (fallback ==> route == if channel == Web then "/app" else "/t/")
      && (!fallback ==> Normalize(wish, channel) == Some(route))
  {
  }

  // ---------------------------------------------------------------- the redirect

  function DefaultReturn(channel: Channel): string {
    if channel == Web then "/app" else "/t/"
  }

  /** `safe_payment_return_context`: route, channel, and whether a fallback was used. */
  function SafeContext(clientChannel: Option<string>, returnTo: Option<string>): (string, Channel, bool) {
    match NormalizeClientChannel(if clientChannel.Some? then clientChannel.value else "")
    case None => (DefaultReturn(Web), Web, true)
    case Some(channel) =>
      match Normalize(if returnTo.Some? then returnTo.value else "", channel)
      case None => (DefaultReturn(channel), channel, true)
      case Some(route) => (route, channel, false)
  }

  function StateText(state: PaymentState): string {
    if state == Success then "success" else "fail"
  }

  function ReturnPairs(state: PaymentState, invoice: pos): Pairs {
    [("payment", StateText(state)), ("invoice_id", NatText(invoice))]
  }

  /** `build_payment_return_url`; an unknown state or a non-positive invoice raises. */
  function BuildUrl(origin: string, clientChannel: Option<string>, returnTo: Option<string>,
                    state: PaymentState, invoice: pos): (string, bool)
  {
    var (route, _, fallback) := SafeContext(clientChannel, returnTo);
    (TrimSlashes(origin) + route + (if '?' in route then "&" else "?") + UrlEncode(ReturnPairs(state, invoice)), fallback)
  }

  lemma RouteOfNoPairs(path: string)
    ensures Route(path, []) == path
  {
  }

  /** The safe route always is one the normaliser would return, fallback or not. */
  lemma SafeRouteParts(clientChannel: Option<string>, returnTo: Option<string>) returns (path: string, values: map<string, string>)
    ensures var (route, channel, _) := SafeContext(clientChannel, returnTo);
      && route == Route(path, InKeyOrder(values, QUERY_KEYS))
      && OutputPath(path, channel) && OutputValues(values, channel)
  {
    var (route, channel, fallback) := SafeContext(clientChannel, returnTo);
    if fallback {
      path, values := DefaultReturn(channel), map[];
      assert InKeyOrder(map[], QUERY_KEYS) == [] by { InKeyOrderShape(map[], QUERY_KEYS); }
      RouteOfNoPairs(path);
    } else {
      var value := if returnTo.Some? then returnTo.value else "";
      PartsAreAllowed(value, channel);
      path, values := NormalizeParts(value, channel).value.0, NormalizeParts(value, channel).value.1;
    }
  }

  /** The safe route is a fixed point of the normaliser. */
  lemma SafeRouteIsNormal(clientChannel: Option<string>, returnTo: Option<string>)
    ensures var (route, channel, _) := SafeContext(clientChannel, returnTo);
      Normalize(route, channel) == Some(route)
  {
    var (_, channel, _) := SafeContext(clientChannel, returnTo);
    var path, values := SafeRouteParts(clientChannel, returnTo);
    RouteReadsBack(path, values, channel);
  }

  /** An origin such as https://example.org, possibly with slashes after it. */
  predicate IsOrigin(scheme: string, netloc: string) {
    && scheme != "" && Letter(scheme[0]) && (forall i :: 0 <= i < |scheme| ==> SchemeChar(scheme[i]))
    && netloc != "" && forall i :: 0 <= i < |netloc| ==> netloc[i] != '/' && netloc[i] != '?' && netloc[i] != '#'
  }

  lemma {:induction false} NetlocEnds(netloc: string, rest: string)
    requires forall i :: 0 <= i < |netloc| ==> netloc[i] != '/' && netloc[i] != '?' && netloc[i] != '#'
    requires rest != "" && rest[0] == '/'
    ensures NetlocEnd(netloc + rest) == |netloc|
  {
    if netloc != [] {
      assert (netloc + rest)[1..] == netloc[1..] + rest;
      NetlocEnds(netloc[1..], rest);
    } else {
      assert netloc + rest == rest;
    }
  }

  lemma SchemeEnds(scheme: string, rest: string)
    requires scheme != "" && Letter(scheme[0]) && forall i :: 0 <= i < |scheme| ==> SchemeChar(scheme[i])
    ensures SchemeEnd(scheme + ":" + rest) == |scheme|
  {
    assert ':' !in scheme;
    FindAt(scheme, ':', rest);
  }

  lemma SplitAuthority(netloc: string, target: string)
    requires forall i :: 0 <= i < |netloc| ==> netloc[i] != '/' && netloc[i] != '?' && netloc[i] != '#'
    requires target != "" && target[0] == '/'
    ensures var rest := "//" + netloc + target;
      var n := 2 + NetlocEnd(rest[2..]);
      StartsWith(rest, "//") && n == 2 + |netloc| && rest[2..n] == netloc && rest[n..] == target
  {
    var rest := "//" + netloc + target;
    assert rest[..2] == "//" && rest[2..] == netloc + target;
    NetlocEnds(netloc, target);
  }

  lemma SplitAbsolute(scheme: string, netloc: string, target: string)
    requires IsOrigin(scheme, netloc) && target != "" && target[0] == '/'
    ensures UrlSplit(scheme + "://" + netloc + target)
         == var (path, query, fragment) := SplitTarget(target); Url(scheme, netloc, path, query, fragment)
  {
    var s := scheme + "://" + netloc + target;
    var rest := "//" + netloc + target;
    assert s == scheme + ":" + rest;
    SchemeEnds(scheme, rest);
    assert s[..|scheme|] == scheme && s[|scheme| + 1..] == rest;
    SplitAuthority(netloc, target);
  }

  lemma BuiltPlain(path: string, extra: Pairs)
    requires forall c :: c in path ==> PathChar(c)
    ensures Route(path, []) + (if '?' in Route(path, []) then "&" else "?") + UrlEncode(extra) == path + "?" + UrlEncode([] + extra)
  {
    assert [] + extra == extra;
    assert '?' !in path;
  }

  lemma BuiltTarget(path: string, pairs: Pairs, extra: Pairs)
    requires forall c :: c in path ==> PathChar(c)
    requires extra != []
    ensures var route := Route(path, pairs);
      route + (if '?' in route then "&" else "?") + UrlEncode(extra) == path + "?" + UrlEncode(pairs + extra)
  {
    if pairs == [] {
      BuiltPlain(path, extra);
    } else {
      ParseEncoded(pairs);
      EncodeAppend(pairs, extra);
      BuiltQuery(path, UrlEncode(pairs), UrlEncode(extra));
    }
  }

  lemma BuiltQuery(path: string, query: string, more: string)
    ensures var route := path + "?" + query;
      route + (if '?' in route then "&" else "?") + more == path + "?" + (query + "&" + more)
  {
    assert (path + "?" + query)[|path|] == '?';
  }

  lemma AbsoluteReadsBack(scheme: string, netloc: string, path: string, pairs: Pairs)
    requires IsOrigin(scheme, netloc) && pairs != []
    requires path != "" && path[0] == '/' && forall c :: c in path ==> PathChar(c)
    ensures UrlSplit(scheme + "://" + netloc + (path + "?" + UrlEncode(pairs)))
         == Url(scheme, netloc, path, UrlEncode(pairs), "")
  {
    EncodedChars(pairs);
    SplitTargetOf(path, UrlEncode(pairs));
    SplitAbsolute(scheme, netloc, path + "?" + UrlEncode(pairs));
  }

  lemma Regroup(a: string, b: string, c: string, d: string)
    ensures a + b + c + d == a + (b + c + d)
  {
  }

  /** The redirect, spelled out. */
  lemma BuiltUrl(origin: string, slashes: string, path: string, pairs: Pairs, extra: Pairs)
    requires origin != "" && origin[|origin| - 1] != '/' && forall i :: 0 <= i < |slashes| ==> slashes[i] == '/'
    requires extra != [] && forall c :: c in path ==> PathChar(c)
    ensures TrimSlashes(origin + slashes) + Route(path, pairs) + (if '?' in Route(path, pairs) then "&" else "?") + UrlEncode(extra)
         == origin + (path + "?" + UrlEncode(pairs + extra))
  {
    TrimmedOrigin(origin, slashes);
    BuiltTarget(path, pairs, extra);
    Regroup(origin, Route(path, pairs), if '?' in Route(path, pairs) then "&" else "?", UrlEncode(extra));
  }

  /** Reading the built redirect gives back the origin, the safe route's own path, and its own pairs
      followed by payment and invoice_id; nothing else can be in it. */
  lemma RedirectReadsBack(scheme: string, netloc: string, slashes: string, clientChannel: Option<string>,
                          returnTo: Option<string>, state: PaymentState, invoice: pos)
    requires IsOrigin(scheme, netloc) && forall i :: 0 <= i < |slashes| ==> slashes[i] == '/'
    ensures var (route, channel, _) := SafeContext(clientChannel, returnTo);
      var u := UrlSplit(BuildUrl(scheme + "://" + netloc + slashes, clientChannel, returnTo, state, invoice).0);
      var r := UrlSplit(route);
      && u.scheme == scheme && u.netloc == netloc && u.path == r.path && u.fragment == ""
      && ParseQsl(r.query).Some?
      && ParseQsl(u.query) == Some(ParseQsl(r.query).value
           + [("payment", if state == Success then "success" else "fail"), ("invoice_id", NatText(invoice))])
  {
    var (route, channel, _) := SafeContext(clientChannel, returnTo);
    var path, values := SafeRouteParts(clientChannel, returnTo);
    var pairs, extra := InKeyOrder(values, QUERY_KEYS), ReturnPairs(state, invoice);
    PathShape(path, channel);
    SplitRoute(path, pairs);
    ParseEncoded(pairs);
    ParseEncoded(pairs + extra);
    BuiltUrl(scheme + "://" + netloc, slashes, path, pairs, extra);
    AbsoluteReadsBack(scheme, netloc, path, pairs + extra);
  }

  lemma {:induction false} TrimmedOrigin(origin: string, slashes: string)
    requires origin != "" && origin[|origin| - 1] != '/' && forall i :: 0 <= i < |slashes| ==> slashes[i] == '/'
    ensures TrimSlashes(origin + slashes) == origin
  {
    if slashes == [] {
      assert origin + slashes == origin;
    } else {
      var n := |slashes| - 1;
      assert (origin + slashes)[..|origin + slashes| - 1] == origin + slashes[..n];
      TrimmedOrigin(origin, slashes[..n]);
    }
  }
}
