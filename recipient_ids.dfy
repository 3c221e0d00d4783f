/**
 * The `recipient_user_ids` column of a scheduled notification: the admin
 * form stores the chosen user ids joined with ','; the notification job
 * splits on ',', skips blank pieces and reads each other piece with
 * Python's `int()`, so one unreadable piece raises.
 */
module RecipientIds {
  import opened Wrappers

  // ---------------------------------------------------------------------------
  // str.split and str.join
  // ---------------------------------------------------------------------------

  /** `s.split(sep)`: the pieces between separators; there is always at least one. */
  function Split(s: string, sep: char): (pieces: seq<string>)
    ensures |pieces| >= 1
    ensures forall i :: 0 <= i < |pieces| ==> sep !in pieces[i]
    decreases |s|
  {
    if |s| == 0 then [""]
    else
      var rest := Split(s[1..], sep);
      if s[0] == sep then [""] + rest
      else [[s[0]] + rest[0]] + rest[1..]
  }

  /** `sep.join(pieces)`. */
  function Join(pieces: seq<string>, sep: char): string
    requires |pieces| >= 1
  {
    if |pieces| == 1 then pieces[0] else pieces[0] + [sep] + Join(pieces[1..], sep)
  }

  /** A piece without the separator in front of more text stays glued to that text's first piece. */
  lemma {:induction false} SplitPrefix(p: string, rest: string, sep: char)
    requires sep !in p
    ensures Split(p + rest, sep) == [p + Split(rest, sep)[0]] + Split(rest, sep)[1..]
    decreases |p|
  {
    if |p| > 0 {
      SplitPrefix(p[1..], rest, sep);
      var r := Split(rest, sep);
      var t := Split(p[1..] + rest, sep);
      assert (p + rest)[1..] == p[1..] + rest;
      assert (p + rest)[0] == p[0] && p[0] != sep;
      assert Split(p + rest, sep) == [[p[0]] + t[0]] + t[1..];
      assert t[0] == p[1..] + r[0] && t[1..] == r[1..];
      assert [p[0]] + (p[1..] + r[0]) == p + r[0];
      assert [p[0]] + t[0] == p + r[0];
      assert Split(p + rest, sep) == [p + r[0]] + r[1..];
    } else {
      var r := Split(rest, sep);
      assert p + rest == rest && p + r[0] == r[0];
      assert r == [r[0]] + r[1..];
    }
  }

  /** Splitting undoes joining when no piece holds the separator. */
  lemma {:induction false} SplitJoin(pieces: seq<string>, sep: char)
    requires |pieces| >= 1
    requires forall i :: 0 <= i < |pieces| ==> sep !in pieces[i]
    ensures Split(Join(pieces, sep), sep) == pieces
    decreases |pieces|
  {
    if |pieces| == 1 {
      SplitPrefix(pieces[0], "", sep);
      assert pieces[0] + "" == pieces[0];
    } else {
      var tail := Join(pieces[1..], sep);
      SplitJoin(pieces[1..], sep);
      assert pieces[0] + [sep] + tail == pieces[0] + ([sep] + tail);
      SplitPrefix(pieces[0], [sep] + tail, sep);
      assert ([sep] + tail)[1..] == tail;
      assert Split([sep] + tail, sep) == [""] + Split(tail, sep);
      assert pieces[0] + "" == pieces[0];
      assert pieces == [pieces[0]] + pieces[1..];
    }
  }

  // ---------------------------------------------------------------------------
  // str.strip and int()
  // ---------------------------------------------------------------------------

  /**
   * The characters `str.strip()` removes: those Python's `str.isspace()`
   * accepts, the ASCII controls 9 to 13 and 28 to 31, the space, NEL, the
   * no-break space and the Unicode space separators.
   */
  predicate IsSpace(c: char) {
    '\U{0009}' <= c <= '\U{000D}' || '\U{001C}' <= c <= '\U{0020}' || c == '\U{0085}' || c == '\U{00A0}' ||
    c == '\U{1680}' || '\U{2000}' <= c <= '\U{200A}' || c == '\U{2028}' || c == '\U{2029}' ||
    c == '\U{202F}' || c == '\U{205F}' || c == '\U{3000}'
  }

  function TrimStart(s: string): (r: string)
    ensures |r| <= |s| && r == s[|s| - |r|..]
    ensures r == [] || !IsSpace(r[0])
    ensures forall i :: 0 <= i < |s| - |r| ==> IsSpace(s[i])
  {
    if |s| > 0 && IsSpace(s[0]) then TrimStart(s[1..]) else s
  }

  function TrimEnd(s: string): (r: string)
    ensures |r| <= |s| && r == s[..|r|]
    ensures r == [] || !IsSpace(r[|r| - 1])
    ensures forall i :: |r| <= i < |s| ==> IsSpace(s[i])
  {
    if |s| > 0 && IsSpace(s[|s| - 1]) then TrimEnd(s[..|s| - 1]) else s
  }

  /** `s.strip()`. */
  function Strip(s: string): string {
    TrimEnd(TrimStart(s))
  }

  predicate IsDigit(c: char) {
    '0' <= c <= '9'
  }

  predicate AllDigits(s: string) {
    forall i :: 0 <= i < |s| ==> IsDigit(s[i])
  }

  /** The value of a decimal digit string, read most significant digit first. */
  function DigitsValue(s: string): nat
    requires AllDigits(s)
  {
    if |s| == 0 then 0 else DigitsValue(s[..|s| - 1]) * 10 + ((s[|s| - 1] as int) - ('0' as int))
  }

  /**
   * A decimal literal as `int()` reads it: digits, where a single underscore
   * may separate two digits (`1_000`).
   */
  predicate IsNumeral(s: string) {
    |s| >= 1 && IsDigit(s[0]) && IsDigit(s[|s| - 1]) &&
    (forall i :: 0 <= i < |s| ==> IsDigit(s[i]) || s[i] == '_') &&
    (forall i :: 0 <= i < |s| - 1 && s[i] == '_' ==> s[i + 1] != '_')
  }

  /** The value of a literal of digits and underscores; the underscores are skipped. */
  function NumeralValue(s: string): nat
    requires forall i :: 0 <= i < |s| ==> IsDigit(s[i]) || s[i] == '_'
  {
    if |s| == 0 then 0
    else if s[|s| - 1] == '_' then NumeralValue(s[..|s| - 1])
    else
      assert IsDigit(s[|s| - 1]);
      NumeralValue(s[..|s| - 1]) * 10 + ((s[|s| - 1] as int) - ('0' as int))
  }

  /** Without underscores a literal's value is its digits' value. */
  lemma {:induction false} NumeralOfDigits(s: string)
    requires AllDigits(s)
    ensures NumeralValue(s) == DigitsValue(s)
  {
    if |s| > 0 {
      NumeralOfDigits(s[..|s| - 1]);
    }
  }

  /**
   * `int()` of a stripped piece: an optional sign and a decimal literal;
   * anything else raises (None).
   */
  function ParseInt(s: string): (r: Option<int>)
    ensures r.Some? <==> IsNumeral(s) || (|s| >= 2 && (s[0] == '+' || s[0] == '-') && IsNumeral(s[1..]))
    ensures r.Some? && IsDigit(s[0]) ==> r.value == NumeralValue(s)
    ensures r.Some? && !IsDigit(s[0]) ==> r.value == (if s[0] == '-' then -1 else 1) * NumeralValue(s[1..])
    ensures |s| >= 1 && AllDigits(s) ==> r == Some(DigitsValue(s))
  {
    if |s| >= 2 && (s[0] == '+' || s[0] == '-') && IsNumeral(s[1..]) then
      var magnitude: int := NumeralValue(s[1..]);
      Some(if s[0] == '-' then -magnitude else magnitude)
    else if IsNumeral(s) then
      if AllDigits(s) then NumeralOfDigits(s); Some(NumeralValue(s))
      else Some(NumeralValue(s))
    else None
  }

  /** The ids the job reads from the split pieces, or None when some non-blank piece is not an integer. */
  function ParsePieces(pieces: seq<string>): (r: Option<seq<int>>)
    ensures r.Some? ==> |r.value| <= |pieces|
  {
    if |pieces| == 0 then Some([])
    else
      var head := Strip(pieces[0]);
      var tail := ParsePieces(pieces[1..]);
      if head == "" then tail
      else match ParseInt(head)
        case None => None
        case Some(v) => if tail.None? then None else Some([v] + tail.value)
  }

  /** `[int(uid) for uid in ids.split(',') if uid.strip()]`, None when it raises. */
  function ParseRecipientIds(s: string): Option<seq<int>> {
    ParsePieces(Split(s, ','))
  }

  // ---------------------------------------------------------------------------
  // Writing ids, and reading them back
  // ---------------------------------------------------------------------------

  function DigitChar(d: nat): (c: char)
    requires d < 10
    ensures IsDigit(c) && (c as int) - ('0' as int) == d
  {
    ('0' as int + d) as char
  }

  /** `str(n)` of a non-negative id. */
  function NatToString(n: nat): (s: string)
    ensures |s| >= 1 && AllDigits(s)
  {
    if n < 10 then [DigitChar(n)] else NatToString(n / 10) + [DigitChar(n % 10)]
  }

  /** Reading a rendered id gives the id back. */
  lemma {:induction false} NatToStringValue(n: nat)
    ensures DigitsValue(NatToString(n)) == n
  {
    if n >= 10 {
      NatToStringValue(n / 10);
      var s := NatToString(n);
      assert s[..|s| - 1] == NatToString(n / 10);
    }
  }

  /** The pieces the admin form joins: each chosen id written in decimal. */
  function Rendered(ids: seq<nat>): (pieces: seq<string>)
    ensures |pieces| == |ids|
    ensures forall i :: 0 <= i < |ids| ==> pieces[i] == NatToString(ids[i])
  {
    if |ids| == 0 then [] else [NatToString(ids[0])] + Rendered(ids[1..])
  }

  /** The stored column for a list of chosen ids (`','.join(recipient_user_ids)`). */
  function StoredIds(ids: seq<nat>): string
    requires |ids| >= 1
  {
    Join(Rendered(ids), ',')
  }

  /** A rendered id is its own strip, and int() reads it back. */
  lemma ReadRendered(n: nat)
    ensures Strip(NatToString(n)) == NatToString(n)
    ensures ParseInt(NatToString(n)) == Some(n)
  {
    var s := NatToString(n);
    assert !IsSpace(s[0]) && !IsSpace(s[|s| - 1]);
    NatToStringValue(n);
  }

  lemma {:induction false} ParseRendered(ids: seq<nat>)
    ensures ParsePieces(Rendered(ids)) == Some(ids)
  {
    if |ids| > 0 {
      ParseRendered(ids[1..]);
      ReadRendered(ids[0]);
      assert Rendered(ids)[1..] == Rendered(ids[1..]);
      assert [ids[0]] + ids[1..] == ids;
    }
  }

  /** The job reads back exactly the ids the admin form stored, in order. */
  lemma StoredIdsRoundTrip(ids: seq<nat>)
    requires |ids| >= 1
    ensures ParseRecipientIds(StoredIds(ids)) == Some(ids)
  {
    var pieces := Rendered(ids);
    forall i | 0 <= i < |pieces|
      ensures ',' !in pieces[i]
    {
      assert AllDigits(pieces[i]);
    }
    SplitJoin(pieces, ',');
    ParseRendered(ids);
  }

  /** A blank piece is skipped. */
  lemma BlankPieceSkipped(piece: string, rest: seq<string>)
    requires Strip(piece) == ""
    ensures ParsePieces([piece] + rest) == ParsePieces(rest)
  {
    assert ([piece] + rest)[1..] == rest;
  }

  /** One non-blank piece that is not an integer makes the whole column unreadable. */
  lemma BadPieceAborts(piece: string, rest: seq<string>)
    requires Strip(piece) != "" && ParseInt(Strip(piece)).None?
    ensures ParsePieces([piece] + rest).None?
  {
  }
}
