/** The identifiers of commands, workspace events and audit rows, and the text the
    database's unique keys actually compare. The tables are keyed by the structured
    identifiers; the lemmas here say for which of them that is the same as comparing texts,
    and exactly which telemetry ids take the text of something else. */
module Ids {

  datatype CommandId =
    | UserCommand(nonce: string)
    | RuleCommand(eventId: string, ruleId: string)

  datatype EventKey =
    | ReadingOf(eventId: string)
    | RuleEventOf(eventId: string, ruleId: string)
    | PendingOf(command: CommandId)
    | RetryOf(command: CommandId, attempt: nat)
    | TerminalOf(command: CommandId)

  datatype AuditKey =
    | RuleMatchOf(eventId: string, ruleId: string)
    | Incident(uuid: string)

  function CommandText(c: CommandId): string {
    match c
    case UserCommand(nonce) => "device-command:user:" + nonce
    case RuleCommand(e, r) => "device-command:" + e + ":" + r
  }

  function EventText(k: EventKey): string {
    match k
    case ReadingOf(e) => e
    case RuleEventOf(e, r) => "rule-event:" + e + ":" + r
    case PendingOf(c) => CommandText(c) + ":pending"
    case RetryOf(c, n) => CommandText(c) + ":retry:" + Decimal(n)
    case TerminalOf(c) => CommandText(c)
  }

  function AuditText(k: AuditKey): string {
    match k
    case RuleMatchOf(e, r) => "rule-match:" + e + ":" + r
    case Incident(uuid) => uuid
  }

  predicate ColonFree(s: string) {
    forall i :: 0 <= i < |s| ==> s[i] != ':'
  }

  const HEX: string := "0123456789abcdef"

  /** Sixteen random bytes in hexadecimal. */
  predicate IsToken(s: string) {
    |s| == 32 && forall i :: 0 <= i < |s| ==> s[i] in HEX
  }

  /** Rule ids are generated as "rule-" followed by a token. */
  predicate IsRuleId(r: string) {
    |r| == 37 && r[..5] == "rule-" && IsToken(r[5..])
  }

  /** The command ids the services generate. */
  predicate WellFormedCommand(c: CommandId) {
    match c
    case UserCommand(nonce) => IsToken(nonce)
    case RuleCommand(e, r) => e != "" && IsRuleId(r)
  }

  /** The event ids the services derive; a reading is stored under its sensor's own id. */
  predicate WellFormedKey(k: EventKey) {
    match k
    case ReadingOf(_) => true
    case RuleEventOf(e, r) => e != "" && IsRuleId(r)
    case PendingOf(c) => WellFormedCommand(c)
    case RetryOf(c, n) => WellFormedCommand(c) && n >= 1
    case TerminalOf(c) => WellFormedCommand(c)
  }

  predicate WellFormedAudit(k: AuditKey) {
    match k
    case RuleMatchOf(_, r) => IsRuleId(r)
    case Incident(uuid) => ColonFree(uuid)
  }

  // ---- Decimal rendering ----------------------------------------------------------

  const DIGITS: string := "0123456789"

  function Decimal(n: nat): (s: string)
    ensures s != ""
    ensures forall i :: 0 <= i < |s| ==> s[i] in DIGITS
  {
    if n < 10 then [DIGITS[n]] else Decimal(n / 10) + [DIGITS[n % 10]]
  }

  function DigitValue(c: char): nat {
    if c == '1' then 1 else if c == '2' then 2 else if c == '3' then 3
    else if c == '4' then 4 else if c == '5' then 5 else if c == '6' then 6
    else if c == '7' then 7 else if c == '8' then 8 else if c == '9' then 9 else 0
  }

  function Parse(s: string): nat {
    if s == "" then 0 else 10 * Parse(s[..|s| - 1]) + DigitValue(s[|s| - 1])
  }

  lemma {:induction false} DecimalRoundTrip(n: nat)
    ensures Parse(Decimal(n)) == n
  {
    var d := n % 10;
    assert DigitValue(DIGITS[d]) == d;
    var s := Decimal(n);
    if n < 10 {
      assert s[..|s| - 1] == "";
    } else {
      DecimalRoundTrip(n / 10);
      assert s[..|s| - 1] == Decimal(n / 10);
    }
  }

  /** A decimal without leading zeros, of a number above zero. */
  predicate IsPositiveDecimal(s: string) {
    s != "" && (forall i :: 0 <= i < |s| ==> s[i] in DIGITS) && s[0] != '0'
  }

  lemma DigitBack(c: char)
    requires c in DIGITS
    ensures DigitValue(c) < 10 && DIGITS[DigitValue(c)] == c && (c != '0' ==> DigitValue(c) > 0)
  {
  }

  lemma {:induction false} PositiveDecimal(n: nat)
    requires n >= 1
    ensures IsPositiveDecimal(Decimal(n))
  {
    if n >= 10 {
      PositiveDecimal(n / 10);
      assert Decimal(n)[0] == Decimal(n / 10)[0];
    }
  }

  lemma DecimalStep(n: nat, d: char)
    requires n >= 1 && d in DIGITS
    ensures Decimal(10 * n + DigitValue(d)) == Decimal(n) + [d]
  {
    DigitBack(d);
    var m := 10 * n + DigitValue(d);
    assert m / 10 == n && m % 10 == DigitValue(d);
  }

  lemma PositivePrefix(s: string)
    requires IsPositiveDecimal(s) && |s| >= 2
    ensures IsPositiveDecimal(s[..|s| - 1])
  {
  }

  lemma LastApart(s: string)
    requires s != ""
    ensures s == s[..|s| - 1] + [s[|s| - 1]]
  {
  }

  /** Every such text is the rendering of some number. */
  lemma {:induction false} DecimalOf(s: string) returns (n: nat)
    requires IsPositiveDecimal(s)
    ensures n >= 1 && Decimal(n) == s
    decreases |s|
  {
    var init, last := s[..|s| - 1], s[|s| - 1];
    LastApart(s);
    DigitBack(last);
    if |s| == 1 {
      n := DigitValue(last);
      assert Decimal(n) == [DIGITS[n]] == [last] == s;
    } else {
      PositivePrefix(s);
      var m := DecimalOf(init);
      DecimalStep(m, last);
      n := 10 * m + DigitValue(last);
    }
  }

  // ---- Splitting at the last colon -------------------------------------------------

  /** Where the last colon stands, or -1. */
  function LastColon(s: string): (at: int)
    ensures -1 <= at < |s|
    ensures at >= 0 ==> s[at] == ':'
    ensures forall i :: at < i < |s| ==> s[i] != ':'
  {
    if s == "" then -1
    else if s[|s| - 1] == ':' then |s| - 1
    else LastColon(s[..|s| - 1])
  }

  lemma LastColonSplit(a: string, x: string, b: string, y: string)
    requires a + ":" + x == b + ":" + y
    requires ColonFree(x) && ColonFree(y)
    ensures a == b && x == y
  {
    var s := a + ":" + x;
    assert s == b + ":" + y;
    assert forall i :: |a| < i < |s| ==> s[i] == x[i - |a| - 1];
    assert forall i :: |b| < i < |s| ==> s[i] == y[i - |b| - 1];
    assert s[|a|] == ':' && s[|b|] == ':';
    assert s[..|a|] == a && s[..|b|] == b;
    assert s[|a| + 1..] == x && s[|b| + 1..] == y;
  }

  lemma LastColonIs(s: string, at: nat)
    requires at < |s| && s[at] == ':' && forall i :: at < i < |s| ==> s[i] != ':'
    ensures LastColon(s) == at
  {
  }

  lemma JoinedPieces(a: string, x: string)
    ensures (a + ":" + x)[..|a|] == a && (a + ":" + x)[|a| + 1..] == x && (a + ":" + x)[|a|] == ':'
  {
  }

  /** Cutting at the last colon undoes joining with a colon. */
  lemma CutJoined(a: string, x: string)
    requires ColonFree(x)
    ensures LastColon(a + ":" + x) == |a|
    ensures (a + ":" + x)[..|a|] == a && (a + ":" + x)[|a| + 1..] == x
  {
    var s := a + ":" + x;
    JoinedPieces(a, x);
    forall i | |a| < i < |s| ensures s[i] != ':' {
      assert s[i] == s[|a| + 1..][i - |a| - 1];
    }
    LastColonIs(s, |a|);
  }

  lemma PrefixCancels(p: string, a: string, b: string)
    requires p + a == p + b
    ensures a == b
  {
    assert (p + a)[|p|..] == a && (p + b)[|p|..] == b;
  }

  lemma TokenFacts(s: string)
    requires IsToken(s)
    ensures ColonFree(s) && s != "" && s[0] != 'r' && s[0] != 'p'
  {
    assert s[0] in HEX;
    forall i | 0 <= i < |s| ensures s[i] != ':' {
      assert s[i] in HEX;
    }
  }

  lemma RuleIdFacts(r: string)
    requires IsRuleId(r)
    ensures ColonFree(r) && r != "" && r[0] == 'r'
  {
    assert r[0] == r[..5][0];
    TokenFacts(r[5..]);
    forall i | 0 <= i < |r| ensures r[i] != ':' {
      if i < 5 {
        assert r[i] == "rule-"[i];
      } else {
        assert r[i] == r[5..][i - 5];
      }
    }
  }

  // ---- Commands ------------------------------------------------------------------------

  const COMMAND: string := "device-command:"
  const USER: string := "device-command:user"

  /** What stands before the last colon of a command's text, and what after it. */
  function Head(c: CommandId): string {
    match c
    case UserCommand(_) => USER
    case RuleCommand(e, _) => COMMAND + e
  }

  function Tail(c: CommandId): string {
    match c
    case UserCommand(nonce) => nonce
    case RuleCommand(_, r) => r
  }

  lemma CommandTextSplit(c: CommandId)
    ensures CommandText(c) == Head(c) + ":" + Tail(c)
  {
    assert "device-command:user:" == USER + ":";
  }

  lemma CommandTailFacts(c: CommandId)
    requires WellFormedCommand(c)
    ensures ColonFree(Tail(c)) && Tail(c) != ""
    ensures Tail(c)[0] == 'r' <==> c.RuleCommand?
    ensures Tail(c)[0] != 'p'
  {
    match c
    case UserCommand(nonce) => TokenFacts(nonce);
    case RuleCommand(_, r) => RuleIdFacts(r);
  }

  /** Two commands with generated ids have the same text exactly when they are the same,
      whatever the telemetry ids in them. */
  lemma CommandTextInjective(c: CommandId, d: CommandId)
    requires WellFormedCommand(c) && WellFormedCommand(d)
    ensures CommandText(c) == CommandText(d) <==> c == d
  {
    if CommandText(c) == CommandText(d) {
      CommandTextSplit(c);
      CommandTextSplit(d);
      CommandTailFacts(c);
      CommandTailFacts(d);
      LastColonSplit(Head(c), Tail(c), Head(d), Tail(d));
      if c.RuleCommand? {
        PrefixCancels(COMMAND, c.eventId, d.eventId);
      }
    }
  }

  // ---- Events ------------------------------------------------------------------------

  predicate IsCommandKey(k: EventKey) {
    k.PendingOf? || k.RetryOf? || k.TerminalOf?
  }

  predicate IsDerived(k: EventKey) {
    !k.ReadingOf?
  }

  const RULE_EVENT: string := "rule-event:"
  const RETRY: string := ":retry"

  function KeyHead(k: EventKey): string
    requires IsDerived(k)
  {
    match k
    case RuleEventOf(e, _) => RULE_EVENT + e
    case PendingOf(c) => CommandText(c)
    case RetryOf(c, _) => CommandText(c) + RETRY
    case TerminalOf(c) => Head(c)
  }

  function KeyTail(k: EventKey): string
    requires IsDerived(k)
  {
    match k
    case RuleEventOf(_, r) => r
    case PendingOf(_) => "pending"
    case RetryOf(_, n) => Decimal(n)
    case TerminalOf(c) => Tail(c)
  }

  lemma Regroup(a: string, p: string, q: string, x: string)
    ensures a + (p + q) + x == a + p + q + x && a + (p + q) == a + p + q
  {
  }

  lemma KeyTextSplit(k: EventKey)
    requires IsDerived(k)
    ensures EventText(k) == KeyHead(k) + ":" + KeyTail(k)
  {
    match k
    case RuleEventOf(e, r) =>
    case PendingOf(c) =>
      assert ":pending" == ":" + "pending";
      Regroup(CommandText(c), ":", "pending", "");
    case RetryOf(c, n) =>
      assert ":retry:" == RETRY + ":";
      Regroup(CommandText(c), RETRY, ":", Decimal(n));
    case TerminalOf(c) =>
      CommandTextSplit(c);
  }

  lemma KeyTailFacts(k: EventKey)
    requires IsDerived(k) && WellFormedKey(k)
    ensures ColonFree(KeyTail(k)) && KeyTail(k) != ""
    ensures k.PendingOf? ==> KeyTail(k)[0] == 'p'
    ensures k.RetryOf? ==> KeyTail(k)[0] in DIGITS
    ensures k.RuleEventOf? ==> KeyTail(k)[0] == 'r'
    ensures k.TerminalOf? ==> KeyTail(k)[0] != 'p' && (KeyTail(k)[0] == 'r' <==> k.command.RuleCommand?)
  {
    match k
    case RuleEventOf(_, r) => RuleIdFacts(r);
    case PendingOf(_) =>
    case RetryOf(_, n) =>
      forall i | 0 <= i < |Decimal(n)| ensures Decimal(n)[i] != ':' {
        assert Decimal(n)[i] in DIGITS;
      }
    case TerminalOf(c) => CommandTailFacts(c);
  }

  /** Equal texts have equal pieces. */
  lemma SamePieces(j: EventKey, k: EventKey)
    requires IsDerived(j) && IsDerived(k) && WellFormedKey(j) && WellFormedKey(k) && EventText(j) == EventText(k)
    ensures KeyHead(j) == KeyHead(k) && KeyTail(j) == KeyTail(k)
  {
    KeyTextSplit(j);
    KeyTextSplit(k);
    KeyTailFacts(j);
    KeyTailFacts(k);
    LastColonSplit(KeyHead(j), KeyTail(j), KeyHead(k), KeyTail(k));
  }

  lemma SameRuleEvent(j: EventKey, k: EventKey)
    requires j.RuleEventOf? && k.RuleEventOf?
    ensures KeyHead(j) == KeyHead(k) && KeyTail(j) == KeyTail(k) ==> j == k
  {
    if KeyHead(j) == KeyHead(k) {
      PrefixCancels(RULE_EVENT, j.eventId, k.eventId);
    }
  }

  lemma SamePending(c: CommandId, d: CommandId)
    requires WellFormedCommand(c) && WellFormedCommand(d)
    ensures KeyHead(PendingOf(c)) == KeyHead(PendingOf(d)) ==> c == d
  {
    CommandTextInjective(c, d);
  }

  lemma SameRetry(c: CommandId, m: nat, d: CommandId, n: nat)
    requires WellFormedCommand(c) && WellFormedCommand(d)
    ensures CommandText(c) + RETRY == CommandText(d) + RETRY && Decimal(m) == Decimal(n) ==> c == d && m == n
  {
    if CommandText(c) + RETRY == CommandText(d) + RETRY {
      assert (CommandText(c) + RETRY)[..|CommandText(c)|] == CommandText(c);
      assert (CommandText(d) + RETRY)[..|CommandText(d)|] == CommandText(d);
    }
    CommandTextInjective(c, d);
    DecimalRoundTrip(m);
    DecimalRoundTrip(n);
  }

  lemma SameTerminal(c: CommandId, d: CommandId)
    requires WellFormedCommand(c) && WellFormedCommand(d)
    ensures Head(c) == Head(d) && Tail(c) == Tail(d) ==> c == d
  {
    CommandTextSplit(c);
    CommandTextSplit(d);
    CommandTextInjective(c, d);
  }

  /** A retry event of one command is never the terminal event of another, although both may
      end in digits: the piece before the last is `retry` in one and `user` in the other. */
  lemma RetryIsNotTerminal(c: CommandId, n: nat, d: CommandId)
    requires n >= 1 && WellFormedCommand(c) && WellFormedCommand(d)
    ensures CommandText(c) + RETRY != Head(d) || Decimal(n) != Tail(d)
  {
    KeyTailFacts(RetryOf(c, n));
    CommandTailFacts(d);
    var h := CommandText(c) + RETRY;
    assert h[|h| - 1] == RETRY[5] == 'y';
    assert USER[|USER| - 1] == USER[18] == 'r';
    assert Decimal(n)[0] in DIGITS && 'r' !in DIGITS;
  }

  /** A rule event is never a command's event: one text begins with `r`, the other with `d`. */
  lemma RuleEventIsNotTerminal(e: string, d: CommandId)
    ensures RULE_EVENT + e != Head(d)
  {
    assert (RULE_EVENT + e)[0] == 'r';
    assert Head(d)[0] == 'd';
  }

  /** Two derived events with generated ids have the same text exactly when they are the same,
      whatever the telemetry ids in them. */
  lemma DerivedTextInjective(j: EventKey, k: EventKey)
    requires IsDerived(j) && IsDerived(k) && WellFormedKey(j) && WellFormedKey(k)
    ensures EventText(j) == EventText(k) <==> j == k
  {
    DerivedPairs(j, k);
    if EventText(j) == EventText(k) {
      SamePieces(j, k);
    }
  }

  lemma DerivedPairs(j: EventKey, k: EventKey)
    requires IsDerived(j) && IsDerived(k) && WellFormedKey(j) && WellFormedKey(k)
    ensures KeyHead(j) == KeyHead(k) && KeyTail(j) == KeyTail(k) ==> j == k
  {
    KeyTailFacts(j);
    KeyTailFacts(k);
    assert 'r' !in DIGITS && 'p' !in DIGITS;
    match j {
      case RuleEventOf(e, r) =>
        if k.TerminalOf? { RuleEventIsNotTerminal(e, k.command); }
        if k.RuleEventOf? { SameRuleEvent(j, k); }
      case PendingOf(c) =>
        if k.PendingOf? { SamePending(c, k.command); }
      case RetryOf(c, n) =>
        if k.TerminalOf? { RetryIsNotTerminal(c, n, k.command); }
        if k.RetryOf? { SameRetry(c, n, k.command, k.attempt); }
      case TerminalOf(c) =>
        if k.RuleEventOf? { RuleEventIsNotTerminal(k.eventId, c); }
        if k.RetryOf? { RetryIsNotTerminal(k.command, k.attempt, c); }
        if k.TerminalOf? { SameTerminal(c, k.command); }
    }
  }

  // ---- Which telemetry ids collide ---------------------------------------------------------

  /** The text of a command id, as a caller can tell by cutting at the last colon. */
  predicate IsCommandText(t: string) {
    var at := LastColon(t);
    at >= 0 && ((t[..at] == USER && IsToken(t[at + 1..])) || (COMMAND < t[..at] && IsRuleId(t[at + 1..])))
  }

  /** The texts the services derive event ids with; a telemetry id should not be one. */
  predicate Reserved(t: string) {
    var at := LastColon(t);
    at >= 0 && (
      || IsCommandText(t)
      || (RULE_EVENT < t[..at] && IsRuleId(t[at + 1..]))
      || (t[at + 1..] == "pending" && IsCommandText(t[..at]))
      || (IsPositiveDecimal(t[at + 1..]) && at >= 6 && t[at - 6..at] == RETRY && IsCommandText(t[..at - 6])))
  }

  lemma CommandTextIs(c: CommandId)
    requires WellFormedCommand(c)
    ensures IsCommandText(CommandText(c))
  {
    CommandTextSplit(c);
    CommandTailFacts(c);
    CutJoined(Head(c), Tail(c));
  }

  lemma CommandOf(t: string) returns (c: CommandId)
    requires IsCommandText(t)
    ensures WellFormedCommand(c) && CommandText(c) == t
  {
    var at := LastColon(t);
    assert t == t[..at] + ":" + t[at + 1..];
    if t[..at] == USER && IsToken(t[at + 1..]) {
      c := UserCommand(t[at + 1..]);
    } else {
      c := RuleCommand(t[..at][|COMMAND|..], t[at + 1..]);
      assert t[..at] == COMMAND + t[..at][|COMMAND|..];
    }
    CommandTextSplit(c);
  }

  lemma DerivedIsReserved(k: EventKey)
    requires IsDerived(k) && WellFormedKey(k)
    ensures Reserved(EventText(k))
  {
    KeyTextSplit(k);
    KeyTailFacts(k);
    CutJoined(KeyHead(k), KeyTail(k));
    match k {
      case RuleEventOf(e, _) => assert RULE_EVENT < RULE_EVENT + e;
      case PendingOf(c) => CommandTextIs(c);
      case RetryOf(c, n) =>
        CommandTextIs(c);
        PositiveDecimal(n);
        RetryPieces(c, n);
      case TerminalOf(c) => CommandTextIs(c);
    }
  }

  lemma RetryPieces(c: CommandId, n: nat)
    ensures var t, at := EventText(RetryOf(c, n)), |CommandText(c)| + 6;
            at <= |t| && t[at - 6..at] == RETRY && t[..at - 6] == CommandText(c)
  {
    KeyTextSplit(RetryOf(c, n));
  }

  lemma RuleEventFrom(h: string, x: string) returns (k: EventKey)
    requires RULE_EVENT < h && IsRuleId(x)
    ensures IsDerived(k) && WellFormedKey(k) && EventText(k) == h + ":" + x
  {
    k := RuleEventOf(h[|RULE_EVENT|..], x);
    assert h == RULE_EVENT + h[|RULE_EVENT|..];
    KeyTextSplit(k);
  }

  lemma PendingFrom(h: string) returns (k: EventKey)
    requires IsCommandText(h)
    ensures IsDerived(k) && WellFormedKey(k) && EventText(k) == h + ":" + "pending"
  {
    var c := CommandOf(h);
    k := PendingOf(c);
    KeyTextSplit(k);
  }

  lemma RetryFrom(h: string, x: string) returns (k: EventKey)
    requires IsCommandText(h) && IsPositiveDecimal(x)
    ensures IsDerived(k) && WellFormedKey(k) && EventText(k) == h + RETRY + ":" + x
  {
    var c := CommandOf(h);
    var n := DecimalOf(x);
    k := RetryOf(c, n);
    KeyTextSplit(k);
  }

  /** Cutting at a colon. */
  lemma CutAt(t: string, at: nat)
    requires at < |t| && t[at] == ':'
    ensures t == t[..at] + ":" + t[at + 1..]
  {
  }

  lemma CutRetry(t: string, at: nat)
    requires 6 <= at < |t| && t[at] == ':' && t[at - 6..at] == RETRY
    ensures t == t[..at - 6] + RETRY + ":" + t[at + 1..]
  {
    assert t[..at] == t[..at - 6] + t[at - 6..at];
    CutAt(t, at);
  }

  lemma ReservedIsDerived(t: string) returns (k: EventKey)
    requires Reserved(t)
    ensures IsDerived(k) && WellFormedKey(k) && EventText(k) == t
  {
    var at := LastColon(t);
    CutAt(t, at);
    if IsCommandText(t) {
      var c := CommandOf(t);
      k := TerminalOf(c);
    } else if RULE_EVENT < t[..at] && IsRuleId(t[at + 1..]) {
      k := RuleEventFrom(t[..at], t[at + 1..]);
    } else if t[at + 1..] == "pending" && IsCommandText(t[..at]) {
      k := PendingFrom(t[..at]);
    } else {
      CutRetry(t, at);
      k := RetryFrom(t[..at - 6], t[at + 1..]);
    }
  }

  /** Exactly the reserved telemetry ids are the text of some event the services derive. */
  lemma CollidesIffReserved(e: string)
    ensures (exists k :: IsDerived(k) && WellFormedKey(k) && EventText(k) == EventText(ReadingOf(e))) <==> Reserved(e)
  {
    if Reserved(e) {
      var k := ReservedIsDerived(e);
    }
    if k :| IsDerived(k) && WellFormedKey(k) && EventText(k) == EventText(ReadingOf(e)) {
      DerivedIsReserved(k);
    }
  }

  /** As long as telemetry ids are not reserved, two workspace events have the same `event_id`
      text exactly when they are the same event. */
  lemma EventTextInjective(j: EventKey, k: EventKey)
    requires WellFormedKey(j) && WellFormedKey(k)
    requires (j.ReadingOf? ==> !Reserved(j.eventId)) && (k.ReadingOf? ==> !Reserved(k.eventId))
    ensures EventText(j) == EventText(k) <==> j == k
  {
    if IsDerived(j) && IsDerived(k) {
      DerivedTextInjective(j, k);
    } else if IsDerived(j) {
      DerivedIsReserved(j);
    } else if IsDerived(k) {
      DerivedIsReserved(k);
    }
  }

  /** For every event the services derive there is a telemetry id that takes its text. */
  lemma ReservedTelemetryIdCollides(k: EventKey)
    requires IsDerived(k) && WellFormedKey(k)
    ensures exists e :: Reserved(e) && EventText(ReadingOf(e)) == EventText(k) && ReadingOf(e) != k
  {
    DerivedIsReserved(k);
    assert EventText(ReadingOf(EventText(k))) == EventText(k);
  }

  lemma AuditTextInjective(j: AuditKey, k: AuditKey)
    requires WellFormedAudit(j) && WellFormedAudit(k)
    ensures AuditText(j) == AuditText(k) <==> j == k
  {
    if AuditText(j) == AuditText(k) {
      var p := "rule-match:";
      if j.RuleMatchOf? { assert AuditText(j)[|p| - 1] == ':'; }
      if k.RuleMatchOf? { assert AuditText(k)[|p| - 1] == ':'; }
      if j.RuleMatchOf? && k.RuleMatchOf? {
        RuleIdFacts(j.ruleId);
        RuleIdFacts(k.ruleId);
        LastColonSplit(p + j.eventId, j.ruleId, p + k.eventId, k.ruleId);
        PrefixCancels(p, j.eventId, k.eventId);
      }
    }
  }

  /** Why generated rule ids matter: with a colon in them, which the generator never puts
      there, two different (event, rule) pairs would share one command. */
  lemma ColonInRuleIdCollides(e: string, r: string, r': string)
    ensures CommandText(RuleCommand(e, r + ":" + r')) == CommandText(RuleCommand(e + ":" + r, r'))
    ensures !IsRuleId(r + ":" + r')
  {
    var p := "device-command:";
    assert p + e + ":" + (r + ":" + r') == p + (e + ":" + r) + ":" + r';
    assert (r + ":" + r')[|r|] == ':';
    if IsRuleId(r + ":" + r') {
      RuleIdFacts(r + ":" + r');
    }
  }
}
