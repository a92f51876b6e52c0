/** The reply of the RCON `list` command (`parse_player_count` in src/supervisor.rs). */
module PlayerCount {
  import opened Wrappers
  import opened Lifecycle

  const COUNT_PREFIX := "There are "
  const MAXIMUM_SEPARATOR := " of a max of "
  const NAMES_SEPARATOR := " players online:"

  predicate IsDigit(c: char) {
    '0' <= c <= '9'
  }

  predicate Digits(s: string) {
    forall i :: 0 <= i < |s| ==> IsDigit(s[i])
  }

  function DigitsValue(s: string): nat
    requires Digits(s)
  {
    if s == "" then 0 else 10 * DigitsValue(s[..|s| - 1]) + (s[|s| - 1] as int - '0' as int)
  }

  /** `str::parse::<u32>`: digits after at most one plus sign, within range. */
  function ParseU32(s: string): Result<u32> {
    var digits := if s != "" && s[0] == '+' then s[1..] else s;
    if digits == "" || !Digits(digits) then Err
    else
      var value := DigitsValue(digits);
      if value < 0x1_0000_0000 then Ok(value) else Err
  }

  /** `str::split_once`: the position of the first occurrence of `separator`. */
  function FirstOccurrence(s: string, separator: string): (r: Option<nat>)
    ensures r.Some? ==>
      && r.value + |separator| <= |s|
      && s[r.value..r.value + |separator|] == separator
      && forall i: nat :: i < r.value ==> !(separator <= s[i..])
    ensures r.None? ==> forall i: nat :: i <= |s| ==> !(separator <= s[i..])
  {
    if separator <= s then Some(0)
    else if s == "" then None
    else
      var rest := FirstOccurrence(s[1..], separator);
      assert forall i: nat :: 0 < i <= |s| ==> s[i..] == s[1..][i - 1..];
      if rest.Some? then Some(rest.value + 1) else None
  }

  /** The parser for any fixed texts: a prefix, and two separators after the two numbers. */
  function ParseCounts(prefix: string, first: string, second: string, response: string): Result<u32> {
    if !(prefix <= response) then Err
    else
      var counts := response[|prefix|..];
      var split := FirstOccurrence(counts, first);
      if split.None? then Err
      else
        var maximum := counts[split.value + |first|..];
        var end := FirstOccurrence(maximum, second);
        if end.None? || ParseU32(maximum[..end.value]).Err? then Err
        else ParseU32(counts[..split.value])
  }

  function Joined(prefix: string, first: string, second: string,
                  players: string, maximum: string, names: string): string {
    prefix + (players + first + (maximum + second + names))
  }

  function ParsePlayerCount(response: string): Result<u32> {
    ParseCounts(COUNT_PREFIX, MAXIMUM_SEPARATOR, NAMES_SEPARATOR, response)
  }

  /** Only a reply that parses as exactly zero counts as zero: no reply, an error or any other text does not. */
  predicate CountsZero(reply: Option<string>) {
    reply.Some? && ParsePlayerCount(reply.value) == Ok(0)
  }

  // ---- What such a reply means, apart from the parser

  /** A number in decimal. */
  function Decimal(n: nat): string {
    if n < 10 then ["0123456789"[n]] else Decimal(n / 10) + ["0123456789"[n % 10]]
  }

  function Zeros(k: nat): string {
    seq(k, _ => '0')
  }

  /** The text is the number in decimal, after at most one plus sign and any number of zeros. */
  ghost predicate Writes(s: string, n: nat) {
    exists k: nat :: s == Zeros(k) + Decimal(n) || s == "+" + (Zeros(k) + Decimal(n))
  }

  lemma {:induction false} ZerosValue(k: nat)
    ensures Digits(Zeros(k)) && DigitsValue(Zeros(k)) == 0
  {
    if k > 0 {
      ZerosValue(k - 1);
      assert Zeros(k)[..k - 1] == Zeros(k - 1);
    }
  }

  lemma {:induction false} DecimalValue(k: nat, n: nat)
    ensures Decimal(n) != "" && Digits(Zeros(k) + Decimal(n)) && DigitsValue(Zeros(k) + Decimal(n)) == n
  {
    var s := Zeros(k) + Decimal(n);
    if n < 10 {
      ZerosValue(k);
      assert s[..|s| - 1] == Zeros(k);
    } else {
      DecimalValue(k, n / 10);
      assert s[..|s| - 1] == Zeros(k) + Decimal(n / 10);
    }
  }

  lemma MoreZeros(k: nat)
    ensures Zeros(k) + Decimal(0) == Zeros(k + 1)
  {
  }

  /** One more digit makes a decimal number longer, or replaces its single zero. */
  lemma OneMoreDigit(k: nat, n: nat, digit: nat) returns (zeros: nat)
    requires digit < 10
    ensures (Zeros(k) + Decimal(n)) + ["0123456789"[digit]] == Zeros(zeros) + Decimal(10 * n + digit)
  {
    if n == 0 {
      zeros := k + 1;
      MoreZeros(k);
    } else {
      zeros := k;
      assert (10 * n + digit) / 10 == n && (10 * n + digit) % 10 == digit;
    }
  }

  lemma {:induction false} DigitsAreDecimal(s: string) returns (k: nat)
    requires s != "" && Digits(s)
    ensures s == Zeros(k) + Decimal(DigitsValue(s))
    decreases |s|
  {
    hide Decimal, Zeros;
    var last := s[|s| - 1];
    var digit := last as int - '0' as int;
    assert IsDigit(last) && ["0123456789"[digit]] == [last];
    var shorter := s[..|s| - 1];
    assert s == shorter + [last];
    if shorter == "" {
      k := 0;
      SingleDigit(digit);
    } else {
      var zeros := DigitsAreDecimal(shorter);
      k := OneMoreDigit(zeros, DigitsValue(shorter), digit);
    }
  }

  lemma SingleDigit(digit: nat)
    requires digit < 10
    ensures Zeros(0) + Decimal(digit) == ["0123456789"[digit]]
  {
  }

  /** Exactly the decimal numbers below 2^32 are parsed, and to the number that they write. */
  lemma ParsesExactlyDecimals(s: string, n: nat)
    ensures ParseU32(s) == Ok(n) <==> n < 0x1_0000_0000 && Writes(s, n)
  {
    hide Decimal, Zeros, DigitsValue;
    if ParseU32(s) == Ok(n) {
      var digits := if s != "" && s[0] == '+' then s[1..] else s;
      var k := DigitsAreDecimal(digits);
      assert digits != s ==> s == "+" + digits;
    }
    if Writes(s, n) {
      var k: nat :| s == Zeros(k) + Decimal(n) || s == "+" + (Zeros(k) + Decimal(n));
      var digits := Zeros(k) + Decimal(n);
      DecimalValue(k, n);
      assert IsDigit(digits[0]);
      assert s != digits ==> s[1..] == digits;
    }
  }

  predicate StartsWithSpace(s: string) {
    s != "" && s[0] == ' '
  }

  /** Text without a space cannot hide an earlier occurrence of a separator that begins with one. */
  lemma SplitsAfterNumber(number: string, separator: string, rest: string)
    requires StartsWithSpace(separator) && ParseU32(number).Ok?
    ensures FirstOccurrence(number + separator + rest, separator) == Some(|number|)
  {
    var s := number + separator + rest;
    assert s[|number|..] == separator + rest;
    forall i: nat | i < |number|
      ensures !(separator <= s[i..])
    {
      assert s[i..][0] == number[i];
      assert number[0] == '+' ==> i == 0 || number[i] == number[1..][i - 1];
    }
  }

  lemma JoinedTextIsCounted(prefix: string, first: string, second: string,
                            players: string, maximum: string, names: string)
    requires StartsWithSpace(first) && StartsWithSpace(second)
    requires ParseU32(players).Ok? && ParseU32(maximum).Ok?
    ensures ParseCounts(prefix, first, second, Joined(prefix, first, second, players, maximum, names))
         == ParseU32(players)
  {
    var response := Joined(prefix, first, second, players, maximum, names);
    var rest := maximum + second + names;
    var counts := players + first + rest;
    assert response[|prefix|..] == counts;
    SplitsAfterNumber(players, first, rest);
    assert counts[|players| + |first|..] == rest && counts[..|players|] == players;
    SplitsAfterNumber(maximum, second, names);
    assert rest[..|maximum|] == maximum;
  }

  lemma CountedTextIsJoined(prefix: string, first: string, second: string, response: string)
    returns (players: string, maximum: string, names: string)
    requires ParseCounts(prefix, first, second, response).Ok?
    ensures response == prefix + (players + first + (maximum + second + names))
    ensures ParseU32(players) == ParseCounts(prefix, first, second, response) && ParseU32(maximum).Ok?
  {
    var counts := response[|prefix|..];
    var split := FirstOccurrence(counts, first).value;
    var rest := counts[split + |first|..];
    var end := FirstOccurrence(rest, second).value;
    players, maximum, names := counts[..split], rest[..end], rest[end + |second|..];
    assert response == prefix + counts;
    assert counts == players + first + rest by {
      SplitsAt(counts, split, first);
    }
    assert rest == maximum + second + names by {
      SplitsAt(rest, end, second);
    }
    assert players + first + rest == players + first + (maximum + second + names);
  }

  lemma SplitsAt(s: string, at: nat, separator: string)
    requires at + |separator| <= |s| && s[at..at + |separator|] == separator
    ensures s == s[..at] + separator + s[at + |separator|..]
  {
  }

  /** The reply is the server's, with a number of players, a maximum within 32 bits, and any names. */
  ghost predicate CountedReply(response: string, players: string, maximum: string, names: string, count: nat) {
    && response == "There are " + players + " of a max of " + maximum + " players online:" + names
    && Writes(players, count) && exists limit: nat :: limit < 0x1_0000_0000 && Writes(maximum, limit)
  }

  /** A count is reported exactly for the server's replies that write that count in decimal, within 32 bits. */
  lemma CountsExactlyServerReplies(response: string, count: nat)
    ensures ParsePlayerCount(response) == Ok(count) <==>
      count < 0x1_0000_0000 && exists players, maximum, names :: CountedReply(response, players, maximum, names, count)
  {
    hide ParseU32, ParseCounts, Writes;
    if ParsePlayerCount(response) == Ok(count) {
      var players, maximum, names :=
        CountedTextIsJoined(COUNT_PREFIX, MAXIMUM_SEPARATOR, NAMES_SEPARATOR, response);
      ParsesExactlyDecimals(players, count);
      ParsesExactlyDecimals(maximum, ParseU32(maximum).value);
      JoinedIsReply(players, maximum, names);
      assert CountedReply(response, players, maximum, names, count);
    }
    if count < 0x1_0000_0000 && exists players, maximum, names :: CountedReply(response, players, maximum, names, count) {
      var players, maximum, names :| CountedReply(response, players, maximum, names, count);
      var limit: nat :| limit < 0x1_0000_0000 && Writes(maximum, limit);
      ParsesExactlyDecimals(maximum, limit);
      ParsesExactlyDecimals(players, count);
      JoinedIsReply(players, maximum, names);
      JoinedTextIsCounted(COUNT_PREFIX, MAXIMUM_SEPARATOR, NAMES_SEPARATOR, players, maximum, names);
    }
  }

  lemma JoinedIsReply(players: string, maximum: string, names: string)
    ensures Joined(COUNT_PREFIX, MAXIMUM_SEPARATOR, NAMES_SEPARATOR, players, maximum, names)
         == "There are " + players + " of a max of " + maximum + " players online:" + names
  {
  }

  /** Zero players are counted only where the server wrote zero: no reply, an error, a number of players that is not
      zero, or any other text is never taken for it. */
  lemma ZeroIsExact(reply: Option<string>)
    ensures CountsZero(reply) <==>
      reply.Some? && exists players, maximum, names :: CountedReply(reply.value, players, maximum, names, 0)
  {
    hide ParseCounts, CountedReply;
    if reply.Some? {
      CountsExactlyServerReplies(reply.value, 0);
    }
  }
}
