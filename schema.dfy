/**
 * Rows of the Postgres schema (acura/internal/models/codegen/models.py): one datatype
 * per table, with the nullable columns as options. Times are whole seconds since the
 * epoch, dates whole days since the epoch, uuids abstract numbers and embeddings
 * vectors of reals.
 */
module Schema {
  import opened Wrappers

  type Timestamp = int
  type Date = int
  type Uuid = nat
  type Embedding = seq<real>

  /** `license` is the uuid column's value, held as its 32 hexadecimal digits in lower case. */
  datatype Subscriber = Subscriber(id: int, license: string, createdAt: Option<Timestamp>, note: Option<string>)

  /** Unique on (title, artist). */
  datatype Track = Track(
    id: int,
    title: string,
    artist: string,
    duration: int,
    uri: string,
    explicit: Option<bool>,
    image: Option<string>,
    searchEmbedding: Option<Embedding>,
    genres: Option<seq<string>>)

  /** Unique on (sid, created_at); `sid` refers to a subscriber. */
  datatype Playlist = Playlist(id: int, sid: Option<int>, createdAt: Option<Date>)

  /** `sid` refers to a subscriber. */
  datatype Prompt = Prompt(id: int, prompt: string, sid: int, activeWhen: Option<string>)

  /** `pid` refers to a playlist and `tid` to a track; nothing is unique but the id. */
  datatype Suggestion = Suggestion(pid: int, tid: int, id: Uuid, addedAt: Option<Timestamp>)

  const SECONDS_PER_HOUR: int := 3600

  /** The lower-case form of a hexadecimal digit, None for any other character. */
  function HexDigit(c: char): (d: Option<char>)
    ensures d.Some? <==> '0' <= c <= '9' || 'a' <= c <= 'f' || 'A' <= c <= 'F'
    ensures d.Some? ==> LowerHex(d.value)
    ensures LowerHex(c) ==> d == Some(c)
    ensures 'A' <= c <= 'F' ==> d == Some((c as int - 'A' as int + 'a' as int) as char)
  {
    if LowerHex(c) then Some(c)
    else if 'A' <= c <= 'F' then Some((c as int - 'A' as int + 'a' as int) as char)
    else None
  }

  predicate LowerHex(c: char) {
    '0' <= c <= '9' || 'a' <= c <= 'f'
  }

  /** 32 lower-case hexadecimal digits: a uuid value. */
  predicate UuidValue(digits: string) {
    |digits| == 32 && forall i :: 0 <= i < 32 ==> LowerHex(digits[i])
  }

  /** A hyphen may follow the `k`-th digit: after a group of four, but not the last. */
  predicate HyphenAfter(k: int) {
    k == 4 || k == 8 || k == 12 || k == 16 || k == 20 || k == 24 || k == 28
  }

  /**
   * PostgreSQL's text input for a uuid: 32 hexadecimal digits in either case, one '-'
   * allowed after any group of four digits but the last, the whole optionally in
   * braces. The value is the 32 digits in lower case; None is the syntax error the
   * cast raises.
   */
  function ParseUuid(s: string): (u: Option<string>)
    ensures u.Some? ==> UuidValue(u.value)
  {
    if |s| > 0 && s[0] == '{' then
      if |s| >= 2 && s[|s| - 1] == '}' then
        DigitsLowerHex(s, 1, |s| - 1, 0);
        ReadDigits(s, 1, |s| - 1, 0)
      else None
    else
      DigitsLowerHex(s, 0, |s|, 0);
      ReadDigits(s, 0, |s|, 0)
  }

  /** The digits of `s[i..end]`, in lower case, when `n` digits were read before `i`. */
  function ReadDigits(s: string, i: nat, end: nat, n: nat): (u: Option<string>)
    requires i <= end <= |s| && n <= 32
    ensures u.Some? ==> |u.value| == 32 - n
    decreases end - i
  {
    if n >= 31 then (if n == 32 && i == end then Some([]) else None)
    else if end - i < 2 || HexDigit(s[i]).None? || HexDigit(s[i + 1]).None? then None
    else
      var next := if end - i > 2 && s[i + 2] == '-' && HyphenAfter(n + 2) then i + 3 else i + 2;
      var tail := ReadDigits(s, next, end, n + 2);
      if tail.None? then None else Some([HexDigit(s[i]).value, HexDigit(s[i + 1]).value] + tail.value)
  }

  /** The digits read are lower-case hexadecimal. */
  lemma {:induction false} DigitsLowerHex(s: string, i: nat, end: nat, n: nat)
    requires i <= end <= |s| && n <= 32
    ensures var u := ReadDigits(s, i, end, n); u.Some? ==> forall j :: 0 <= j < |u.value| ==> LowerHex(u.value[j])
    decreases end - i
  {
    if n < 31 && end - i >= 2 && HexDigit(s[i]).Some? && HexDigit(s[i + 1]).Some? {
      var next := if end - i > 2 && s[i + 2] == '-' && HyphenAfter(n + 2) then i + 3 else i + 2;
      DigitsLowerHex(s, next, end, n + 2);
      var u, tail := ReadDigits(s, i, end, n), ReadDigits(s, next, end, n + 2);
      if u.Some? {
        assert u.value == [HexDigit(s[i]).value, HexDigit(s[i + 1]).value] + tail.value;
        forall j | 0 <= j < |u.value| ensures LowerHex(u.value[j]) {
          if j >= 2 {
            assert u.value[j] == tail.value[j - 2];
          }
        }
      }
    }
  }

  /** The `p`-th character of the printed uuid. */
  function TextChar(digits: string, p: nat): char
    requires |digits| == 32 && p < 36
  {
    if p == 8 || p == 13 || p == 18 || p == 23 then '-'
    else digits[p - (if p < 8 then 0 else if p < 13 then 1 else if p < 18 then 2 else if p < 23 then 3 else 4)]
  }

  /** The text PostgreSQL prints for a uuid: its digits grouped 8-4-4-4-12 by hyphens. */
  function UuidText(digits: string): (t: string)
    requires |digits| == 32
    ensures |t| == 36
  {
    seq(36, p requires 0 <= p < 36 => TextChar(digits, p))
  }

  /** Where the `k`-th pair of digits starts in the printed text. */
  function PairPos(k: nat): nat {
    2 * k + (if k < 4 then 0 else if k < 6 then 1 else if k < 8 then 2 else if k < 10 then 3 else 4)
  }

  /** The printed text of a uuid reads back as that uuid. */
  lemma UuidTextRoundTrip(digits: string)
    requires UuidValue(digits)
    ensures ParseUuid(UuidText(digits)) == Some(digits)
  {
    var t := UuidText(digits);
    assert t[0] == digits[0];
    ReadText(digits, 0);
    assert digits[0..] == digits;
  }

  /** Reading the printed text from the `k`-th pair on gives the digits from there. */
  lemma {:induction false} ReadText(digits: string, k: nat)
    requires UuidValue(digits) && k <= 16
    ensures ReadDigits(UuidText(digits), PairPos(k), 36, 2 * k) == Some(digits[2 * k..])
    decreases 16 - k
  {
    var t := UuidText(digits);
    var n, i := 2 * k, PairPos(k);
    if k < 16 {
      ReadText(digits, k + 1);
      PairChars(digits, k);
      assert LowerHex(digits[n]) && LowerHex(digits[n + 1]);
      if k + 1 == 4 || k + 1 == 6 || k + 1 == 8 || k + 1 == 10 {
        assert HyphenAfter(n + 2);
      } else if i + 2 < 36 {
        assert LowerHex(digits[n + 2]);
      }
      PairSlice(digits, n);
    } else {
      assert i == 36 && digits[n..] == [];
    }
  }

  /** The characters at and after the `k`-th pair of the printed text. */
  lemma PairChars(digits: string, k: nat)
    requires |digits| == 32 && k < 16
    ensures var t, i := UuidText(digits), PairPos(k);
            t[i] == digits[2 * k] && t[i + 1] == digits[2 * k + 1]
            && (k + 1 == 4 || k + 1 == 6 || k + 1 == 8 || k + 1 == 10 ==> t[i + 2] == '-' && PairPos(k + 1) == i + 3)
            && (!(k + 1 == 4 || k + 1 == 6 || k + 1 == 8 || k + 1 == 10) ==>
                  PairPos(k + 1) == i + 2 && (i + 2 < 36 ==> t[i + 2] == digits[2 * k + 2]))
  {
    var t, i := UuidText(digits), PairPos(k);
    if k < 4 {
      assert i == 2 * k;
    } else if k < 6 {
      assert i == 2 * k + 1;
    } else if k < 8 {
      assert i == 2 * k + 2;
    } else if k < 10 {
      assert i == 2 * k + 3;
    } else {
      assert i == 2 * k + 4;
    }
    assert t[i] == TextChar(digits, i) && t[i + 1] == TextChar(digits, i + 1);
    if i + 2 < 36 {
      assert t[i + 2] == TextChar(digits, i + 2);
    }
  }

  lemma PairSlice(s: string, n: nat)
    requires n + 2 <= |s|
    ensures s[n..] == [s[n], s[n + 1]] + s[n + 2..]
  {
  }

  /**
   * A `license = key` comparison on the uuid column: the key is cast to a uuid, and
   * that uuid is the row's.
   */
  predicate SameLicense(license: string, key: string) {
    ParseUuid(key) == Some(license)
  }

  /** Two spellings that differ only in the case of their digits read alike. */
  lemma {:induction false} DigitCaseIgnored(s: string, t: string, i: nat, end: nat, n: nat)
    requires i <= end <= |s| && end <= |t| && n <= 32
    requires forall j :: i <= j < end ==> s[j] == t[j] || (HexDigit(s[j]).Some? && HexDigit(s[j]) == HexDigit(t[j]))
    ensures ReadDigits(s, i, end, n) == ReadDigits(t, i, end, n)
    decreases end - i
  {
    if n < 31 && end - i >= 2 {
      assert HexDigit(s[i]) == HexDigit(t[i]) && HexDigit(s[i + 1]) == HexDigit(t[i + 1]);
      if end - i > 2 {
        assert s[i + 2] == '-' <==> t[i + 2] == '-';
      }
      if HexDigit(s[i]).Some? && HexDigit(s[i + 1]).Some? {
        var next := if end - i > 2 && s[i + 2] == '-' && HyphenAfter(n + 2) then i + 3 else i + 2;
        DigitCaseIgnored(s, t, next, end, n + 2);
      }
    }
  }

  /** So a key that is the printed license with some digits in upper case finds that license. */
  lemma LicenseCaseIgnored(license: string, key: string)
    requires UuidValue(license) && |key| == 36
    requires forall i :: 0 <= i < 36 ==>
               key[i] == UuidText(license)[i] || (HexDigit(key[i]).Some? && HexDigit(key[i]) == HexDigit(UuidText(license)[i]))
    ensures SameLicense(license, key)
  {
    var text := UuidText(license);
    UuidTextRoundTrip(license);
    assert text[0] == license[0] && LowerHex(license[0]);
    DigitCaseIgnored(key, text, 0, 36, 0);
  }

  /** Rows of `SELECT * FROM subscribers WHERE license = key`, in table order. */
  function SelectByLicense(table: seq<Subscriber>, key: string): (rows: seq<Subscriber>)
    ensures |rows| <= |table|
    ensures forall i :: 0 <= i < |rows| ==> rows[i] in table && SameLicense(rows[i].license, key)
    ensures forall s :: s in table && SameLicense(s.license, key) ==> s in rows
    ensures ParseUuid(key).None? ==> rows == []
    ensures forall i :: 0 <= i < |rows| ==> UuidValue(rows[i].license)
  {
    if table == [] then []
    else if SameLicense(table[0].license, key) then [table[0]] + SelectByLicense(table[1..], key)
    else SelectByLicense(table[1..], key)
  }
}
