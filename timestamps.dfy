/**
 * get_ts_ms: the timestamp normaliser. A record is an attribute map; the first of five candidate
 * attributes whose value converts gives the timestamp in epoch milliseconds.
 */
module Timestamps {
  import opened Wrappers

  /**
   * An attribute value as Python sees it. NoneV is None, which is also what a missing attribute
   * reads as. BoolV is kept apart because Python's bool is a subclass of int.
   */
  datatype RawValue = NoneV | BoolV(b: bool) | IntV(i: int) | FloatV(r: real) | StrV(s: string) | Other

  type Record = map<string, RawValue>

  /**
   * `int(datetime.fromisoformat(text).timestamp() * 1000)`, or None where that raises.
   * The parser itself is not modelled; every operation that needs it takes it as a parameter.
   */
  type IsoParser = string -> Option<int>

  /** The candidate attributes, in the order they are tried. */
  const TIMESTAMP_FIELDS: seq<string> := ["time", "ts", "created_time", "created_ts", "settled_time"]

  /** Integers above this are taken to be milliseconds already, the rest seconds. */
  const MILLIS_THRESHOLD: int := 1_000_000_000_000

  /** `getattr(obj, attr, None)` */
  function Lookup(rec: Record, attr: string): (v: RawValue)
    ensures attr !in rec ==> v == NoneV
  {
    if attr in rec then rec[attr] else NoneV
  }

  /** Python's int() of a float: truncation toward zero. */
  function Truncate(x: real): (n: int)
    ensures 0.0 <= x ==> n as real <= x < n as real + 1.0
    ensures x < 0.0 ==> n as real - 1.0 < x <= n as real
  {
    if 0.0 <= x then x.Floor else -((-x).Floor)
  }

  /** `text.replace("Z", "+00:00")`: every 'Z' is replaced, not only a trailing one. */
  function ReplaceZ(text: string): (r: string)
    ensures 'Z' !in r
    ensures 'Z' !in text ==> r == text
    ensures |r| == |text| + 5 * multiset(text)['Z']
  {
    if text == [] then []
    else
      assert text == [text[0]] + text[1..];
      (if text[0] == 'Z' then "+00:00" else [text[0]]) + ReplaceZ(text[1..])
  }

  /**
   * The replacement works character by character and keeps the order of the text: a `Z` becomes
   * the UTC offset "+00:00", any other character stays as it is, and a concatenation is replaced
   * piece by piece.
   */
  lemma {:induction false} ReplaceZPiecewise(a: string, b: string, c: char)
    ensures ReplaceZ("Z") == "+00:00"
    ensures c != 'Z' ==> ReplaceZ([c]) == [c]
    ensures ReplaceZ(a + b) == ReplaceZ(a) + ReplaceZ(b)
  {
    assert "Z"[1..] == [];
    assert [c][1..] == [];
    if a != [] {
      assert (a + b)[0] == a[0];
      assert (a + b)[1..] == a[1..] + b;
      ReplaceZPiecewise(a[1..], b, c);
    } else {
      assert a + b == b;
    }
  }

  /** The integer branch: milliseconds above the threshold, seconds (scaled by 1000) otherwise. */
  function IntMillis(n: int): int
  {
    if n > MILLIS_THRESHOLD then n else n * 1000
  }

  /** One candidate's value in milliseconds; None means "go on to the next candidate". */
  function ToMillis(v: RawValue, iso: IsoParser): Option<int>
  {
    match v
    case NoneV => None
    case BoolV(b) => Some(IntMillis(if b then 1 else 0))
    case IntV(n) => Some(IntMillis(n))
    case FloatV(x) => Some(Truncate(x * 1000.0))
    case StrV(text) => iso(ReplaceZ(text))
    case Other => None
  }

  /** The first of `fields` whose value converts, as the loop with its early return computes it. */
  function FirstMillis(rec: Record, fields: seq<string>, iso: IsoParser): Option<int>
  {
    if fields == [] then None
    else
      match ToMillis(Lookup(rec, fields[0]), iso)
      case Some(ms) => Some(ms)
      case None => FirstMillis(rec, fields[1..], iso)
  }

  /** get_ts_ms */
  function GetTsMs(rec: Record, iso: IsoParser): Option<int>
  {
    FirstMillis(rec, TIMESTAMP_FIELDS, iso)
  }

  /** Candidate `i` is the first one in `fields` whose value converts. */
  ghost predicate FirstHit(rec: Record, fields: seq<string>, iso: IsoParser, i: int)
  {
    && 0 <= i < |fields|
    && ToMillis(Lookup(rec, fields[i]), iso).Some?
    && forall j :: 0 <= j < i ==> ToMillis(Lookup(rec, fields[j]), iso).None?
  }

  /**
   * The first-match search: the result is None exactly when no candidate converts, and otherwise
   * it is the value of the first candidate that does.
   */
  lemma {:induction false} FirstMillisIsFirstHit(rec: Record, fields: seq<string>, iso: IsoParser)
    ensures FirstMillis(rec, fields, iso).None? <==>
              forall i :: 0 <= i < |fields| ==> ToMillis(Lookup(rec, fields[i]), iso).None?
    ensures forall i :: FirstHit(rec, fields, iso, i) ==>
              FirstMillis(rec, fields, iso) == ToMillis(Lookup(rec, fields[i]), iso)
  {
    if fields != [] {
      var rest := fields[1..];
      FirstMillisIsFirstHit(rec, rest, iso);
      if ToMillis(Lookup(rec, fields[0]), iso).None? {
        forall i | FirstHit(rec, fields, iso, i)
          ensures FirstMillis(rec, fields, iso) == ToMillis(Lookup(rec, fields[i]), iso)
        {
          assert i != 0;
          assert FirstHit(rec, rest, iso, i - 1) by {
            forall j | 0 <= j < i - 1 ensures ToMillis(Lookup(rec, rest[j]), iso).None? {
              assert rest[j] == fields[j + 1];
            }
          }
        }
        forall i | 0 <= i < |rest| ensures rest[i] == fields[i + 1] { }
      }
    }
  }

  /** get_ts_ms in full: None only when all five candidates fail, otherwise the first that converts. */
  lemma {:induction false} GetTsMsFirstCandidate(rec: Record, iso: IsoParser)
    ensures GetTsMs(rec, iso).None? <==>
              forall i :: 0 <= i < |TIMESTAMP_FIELDS| ==> ToMillis(Lookup(rec, TIMESTAMP_FIELDS[i]), iso).None?
    ensures forall i :: FirstHit(rec, TIMESTAMP_FIELDS, iso, i) ==>
              GetTsMs(rec, iso) == ToMillis(Lookup(rec, TIMESTAMP_FIELDS[i]), iso)
  {
    FirstMillisIsFirstHit(rec, TIMESTAMP_FIELDS, iso);
  }

  /** Which values make the search move on: None, an unsupported type, or text that does not parse. */
  lemma {:induction false} ToMillisFallsThrough(v: RawValue, iso: IsoParser)
    ensures ToMillis(v, iso).None? <==> v.NoneV? || v.Other? || (v.StrV? && iso(ReplaceZ(v.s)).None?)
  {
  }

  /**
   * The numeric branches: an integer above 10^12 is kept as milliseconds, any other integer is
   * seconds and comes back as an exact multiple of 1000 that divides back to it; a float is scaled
   * with no threshold and truncated toward zero.
   */
  lemma {:induction false} NumericMillis(n: int, x: real, iso: IsoParser)
    ensures n > MILLIS_THRESHOLD ==> ToMillis(IntV(n), iso) == Some(n)
    ensures n <= MILLIS_THRESHOLD ==>
              ToMillis(IntV(n), iso).Some? && ToMillis(IntV(n), iso).value % 1000 == 0 && ToMillis(IntV(n), iso).value / 1000 == n
    ensures ToMillis(BoolV(true), iso) == Some(1000) && ToMillis(BoolV(false), iso) == Some(0)
    ensures ToMillis(FloatV(x), iso).Some? && ToMillis(FloatV(x), iso).value == Truncate(x * 1000.0)
  {
  }
}
