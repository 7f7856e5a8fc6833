/** The `User` record the backend returns, and the text it is stored as under
    the `user` key. The source stores `JSON.stringify(user)` and reads it back
    with `JSON.parse`; here the text is an escaped, comma-terminated list of
    the record's fields, and all the model relies on is proved below: decoding
    inverts encoding. */
module UserCodec {
  import opened Wrappers

  datatype User = User(
    id: int,
    email: string,
    username: string,
    fullName: Option<string>,
    softwareExperience: string,
    hardwareExperience: string,
    programmingLanguages: Option<string>,
    industryBackground: Option<string>,
    learningGoals: Option<string>,
    preferredLanguage: string,
    contentComplexity: string
  )

  const Sep := ','
  const Esc := '\\'

  // ---------------------------------------------------------------------
  // One field: escape the separator and the escape character

  function EscapeChar(c: char): string
  {
    if c == Sep || c == Esc then [Esc, c] else [c]
  }

  function Escape(s: string): string
  {
    if s == [] then [] else EscapeChar(s[0]) + Escape(s[1..])
  }

  /** Reads one field up to its unescaped separator; returns the field and
      what follows the separator. */
  function ReadField(s: string): (r: Option<(string, string)>)
    ensures r.Some? ==> |r.value.1| < |s|
    decreases |s|
  {
    if s == [] then None
    else if s[0] == Sep then Some(([], s[1..]))
    else if s[0] == Esc then
      if |s| < 2 then None
      else
        var p :- ReadField(s[2..]);
        Some(([s[1]] + p.0, p.1))
    else
      var p :- ReadField(s[1..]);
      Some(([s[0]] + p.0, p.1))
  }

  lemma {:induction false} ReadEscaped(f: string, rest: string)
    ensures ReadField(Escape(f) + [Sep] + rest) == Some((f, rest))
  {
    var s := Escape(f) + [Sep] + rest;
    if f == [] {
      assert s == [Sep] + rest;
      assert s[1..] == rest;
    } else {
      ReadEscaped(f[1..], rest);
      var tail := Escape(f[1..]) + [Sep] + rest;
      assert s == EscapeChar(f[0]) + tail;
      assert [f[0]] + f[1..] == f;
      if f[0] == Sep || f[0] == Esc {
        assert s[0] == Esc && s[1] == f[0] && s[2..] == tail;
      } else {
        assert s[0] == f[0] && s[1..] == tail;
      }
    }
  }

  // ---------------------------------------------------------------------
  // A list of fields

  function EncodeFields(fs: seq<string>): string
  {
    if fs == [] then [] else Escape(fs[0]) + [Sep] + EncodeFields(fs[1..])
  }

  /** Reads exactly `n` fields and requires nothing to follow them. */
  function DecodeFields(s: string, n: nat): (r: Option<seq<string>>)
    ensures r.Some? ==> |r.value| == n
    decreases n
  {
    if n == 0 then
      if s == [] then Some([]) else None
    else
      var p :- ReadField(s);
      var rest :- DecodeFields(p.1, n - 1);
      Some([p.0] + rest)
  }

  lemma {:induction false} DecodeEncodeFields(fs: seq<string>)
    ensures DecodeFields(EncodeFields(fs), |fs|) == Some(fs)
  {
    if fs != [] {
      ReadEscaped(fs[0], EncodeFields(fs[1..]));
      DecodeEncodeFields(fs[1..]);
      assert [fs[0]] + fs[1..] == fs;
    }
  }

  // ---------------------------------------------------------------------
  // Numbers

  predicate IsDigit(c: char)
  {
    '0' <= c <= '9'
  }

  function Digit(d: nat): (c: char)
    requires d < 10
    ensures IsDigit(c)
  {
    ('0' as int + d) as char
  }

  /** Decimal digits of `n`, most significant first, with no leading zero. */
  function NatToDigits(n: nat): (s: string)
    ensures s != [] && forall i :: 0 <= i < |s| ==> IsDigit(s[i])
  {
    if n < 10 then [Digit(n)] else NatToDigits(n / 10) + [Digit(n % 10)]
  }

  function DigitsValue(s: string): nat
    requires forall i :: 0 <= i < |s| ==> IsDigit(s[i])
  {
    if s == [] then 0
    else
      assert IsDigit(s[|s| - 1]);
      DigitsValue(s[..|s| - 1]) * 10 + (s[|s| - 1] as int - '0' as int)
  }

  lemma {:induction false} DigitsValueOfNat(n: nat)
    ensures DigitsValue(NatToDigits(n)) == n
  {
    var s := NatToDigits(n);
    if n >= 10 {
      DigitsValueOfNat(n / 10);
      assert s[..|s| - 1] == NatToDigits(n / 10);
    }
  }

  function ParseNat(s: string): Option<nat>
  {
    if s != [] && forall i :: 0 <= i < |s| ==> IsDigit(s[i]) then Some(DigitsValue(s)) else None
  }

  function IntToString(i: int): string
  {
    if i < 0 then ['-'] + NatToDigits(-i) else NatToDigits(i)
  }

  function ParseInt(s: string): Option<int>
  {
    if s != [] && s[0] == '-' then
      var m :- ParseNat(s[1..]);
      Some(-(m as int))
    else
      var m :- ParseNat(s);
      Some(m)
  }

  lemma ParseIntToString(i: int)
    ensures ParseInt(IntToString(i)) == Some(i)
  {
    var s := IntToString(i);
    if i < 0 {
      assert s[1..] == NatToDigits(-i);
      DigitsValueOfNat(-i);
    } else {
      DigitsValueOfNat(i);
    }
  }

  // ---------------------------------------------------------------------
  // Optional fields: an absent key, or a present one tagged with '+'

  function OptField(o: Option<string>): string
  {
    match o
    case None => []
    case Some(s) => ['+'] + s
  }

  function ParseOptField(s: string): Option<Option<string>>
  {
    if s == [] then Some(None)
    else if s[0] == '+' then Some(Some(s[1..]))
    else None
  }

  lemma ParseOptFieldRoundTrip(o: Option<string>)
    ensures ParseOptField(OptField(o)) == Some(o)
  {
    if o.Some? {
      assert OptField(o)[1..] == o.value;
    }
  }

  // ---------------------------------------------------------------------
  // The record

  function Fields(u: User): seq<string>
  {
    [IntToString(u.id), u.email, u.username, OptField(u.fullName),
     u.softwareExperience, u.hardwareExperience, OptField(u.programmingLanguages),
     OptField(u.industryBackground), OptField(u.learningGoals),
     u.preferredLanguage, u.contentComplexity]
  }

  /** `JSON.parse` of a stored user; `None` for text that is not one. */
  function Decode(s: string): Option<User>
  {
    var fs :- DecodeFields(s, 11);
    var id :- ParseInt(fs[0]);
    var fullName :- ParseOptField(fs[3]);
    var languages :- ParseOptField(fs[6]);
    var industry :- ParseOptField(fs[7]);
    var goals :- ParseOptField(fs[8]);
    Some(User(id, fs[1], fs[2], fullName, fs[4], fs[5], languages, industry, goals, fs[9], fs[10]))
  }

  /** `JSON.stringify` of a user: never empty, and decoding it gives the user
      back. */
  function Encode(u: User): (s: string)
    ensures s != []
    ensures Decode(s) == Some(u)
  {
    var fs := Fields(u);
    DecodeEncodeFields(fs);
    ParseIntToString(u.id);
    ParseOptFieldRoundTrip(u.fullName);
    ParseOptFieldRoundTrip(u.programmingLanguages);
    ParseOptFieldRoundTrip(u.industryBackground);
    ParseOptFieldRoundTrip(u.learningGoals);
    EncodeFields(fs)
  }

  /** Distinct users are stored as distinct text. */
  lemma EncodeInjective(u: User, v: User)
    ensures Encode(u) == Encode(v) ==> u == v
  {
    if Encode(u) == Encode(v) {
      assert Some(u) == Decode(Encode(u)) == Decode(Encode(v)) == Some(v);
    }
  }
}
