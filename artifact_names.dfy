/**
 * The name under which one instrument's day of bars is uploaded:
 * the symbol with every `^` removed and every `.` turned into `_`,
 * then `_YYYY_MM_DD.parquet` for the run date.
 */
module ArtifactNames {
  import opened Wrappers
  import opened Calendar

  const Extension := ".parquet"

  /** `s.replace(c, '')`: every occurrence of `c` dropped, the rest kept in order. */
  function RemoveAll(s: string, c: char): (r: string)
    ensures c !in r
    ensures forall x :: x in r ==> x in s
  {
    if s == [] then [] else (if s[0] == c then [] else [s[0]]) + RemoveAll(s[1..], c)
  }

  /** `s.replace(a, b)` for single characters. */
  function ReplaceAll(s: string, a: char, b: char): (r: string)
    ensures |r| == |s|
    ensures forall i :: 0 <= i < |r| ==> r[i] == if s[i] == a then b else s[i]
  {
    if s == [] then [] else [if s[0] == a then b else s[0]] + ReplaceAll(s[1..], a, b)
  }

  /** `symbol.replace('^', '').replace('.', '_')`. */
  function Sanitize(symbol: string): (r: string)
    ensures '^' !in r && '.' !in r
    ensures |r| <= |symbol|
  {
    var stripped := RemoveAll(symbol, '^');
    RemoveAllShrinks(symbol, '^');
    ReplaceAll(stripped, '.', '_')
  }

  lemma {:induction false} RemoveAllShrinks(s: string, c: char)
    ensures |RemoveAll(s, c)| <= |s|
  {
    if s != [] {
      RemoveAllShrinks(s[1..], c);
    }
  }

  /** How Sanitize treats one character. */
  function SanitizeChar(c: char): string {
    if c == '^' then [] else if c == '.' then "_" else [c]
  }

  lemma {:induction false} RemoveAllConcat(a: string, b: string, c: char)
    ensures RemoveAll(a + b, c) == RemoveAll(a, c) + RemoveAll(b, c)
  {
    if a == [] {
      assert a + b == b;
    } else {
      assert (a + b)[0] == a[0] && (a + b)[1..] == a[1..] + b;
      RemoveAllConcat(a[1..], b, c);
    }
  }

  /** Sanitize works character by character: it distributes over concatenation. */
  lemma SanitizeConcat(a: string, b: string)
    ensures Sanitize(a + b) == Sanitize(a) + Sanitize(b)
  {
    RemoveAllConcat(a, b, '^');
  }

  /** On one character, Sanitize drops `^`, maps `.` to `_` and keeps anything else. */
  lemma SanitizeOneChar(c: char)
    ensures Sanitize([c]) == SanitizeChar(c)
  {
    assert RemoveAll([c], '^') == (if c == '^' then [] else [c]) + RemoveAll([], '^');
  }

  lemma {:induction false} RemoveAllAbsent(s: string, c: char)
    requires c !in s
    ensures RemoveAll(s, c) == s
  {
    if s != [] {
      RemoveAllAbsent(s[1..], c);
    }
  }

  /** A symbol with no `^` and no `.` is its own sanitized form; hence Sanitize is idempotent. */
  lemma SanitizeIdempotent(s: string)
    ensures '^' !in s && '.' !in s ==> Sanitize(s) == s
    ensures Sanitize(Sanitize(s)) == Sanitize(s)
  {
    forall t: string | '^' !in t && '.' !in t
      ensures Sanitize(t) == t
    {
      RemoveAllAbsent(t, '^');
    }
  }

  /** The count of characters Sanitize removes is the count of `^` in the symbol. */
  function Count(s: string, c: char): nat {
    if s == [] then 0 else (if s[0] == c then 1 else 0) + Count(s[1..], c)
  }

  lemma {:induction false} SanitizeLength(s: string)
    ensures |Sanitize(s)| == |s| - Count(s, '^')
  {
    if s != [] {
      assert s == [s[0]] + s[1..];
      SanitizeConcat([s[0]], s[1..]);
      SanitizeOneChar(s[0]);
      SanitizeLength(s[1..]);
    }
  }

  /** The uploaded file name for `symbol` on run date `d`. */
  function ArtifactName(symbol: string, d: Date): (name: string)
    requires ValidDate(d)
    ensures |name| == |Sanitize(symbol)| + 19
    ensures name[|name| - 8..] == Extension
  {
    Sanitize(symbol) + "_" + FormatDate(d, '_') + Extension
  }

  /** Splits a name into its sanitized-symbol part and its date, if it has the artifact shape. */
  function ParseArtifactName(name: string): Option<(string, Date)> {
    if |name| < 19 || name[|name| - 8..] != Extension || name[|name| - 19] != '_' then None
    else
      match ParseDate(name[|name| - 18..|name| - 8], '_')
      case Some(d) => Some((name[..|name| - 19], d))
      case None => None
  }

  /** The name determines the sanitized symbol and the date it was built from. */
  lemma ArtifactNameRoundTrip(symbol: string, d: Date)
    requires ValidDate(d)
    ensures ParseArtifactName(ArtifactName(symbol, d)) == Some((Sanitize(symbol), d))
  {
    var name := ArtifactName(symbol, d);
    var k := |Sanitize(symbol)|;
    assert name[..k] == Sanitize(symbol);
    assert name[k] == '_';
    assert name[k + 1..k + 11] == FormatDate(d, '_');
    FormatDateRoundTrip(d, '_');
  }

  /** Two uploads get the same name exactly when symbol and date agree after sanitizing. */
  lemma ArtifactNameInjective(s1: string, d1: Date, s2: string, d2: Date)
    requires ValidDate(d1) && ValidDate(d2)
    ensures ArtifactName(s1, d1) == ArtifactName(s2, d2) <==> Sanitize(s1) == Sanitize(s2) && d1 == d2
  {
    if ArtifactName(s1, d1) == ArtifactName(s2, d2) {
      ArtifactNameRoundTrip(s1, d1);
      ArtifactNameRoundTrip(s2, d2);
    }
  }

  /** An exchange-suffixed symbol `BASE.EXT` becomes `BASE_EXT`; an index marker `^` is dropped. */
  lemma SanitizeShapes(base: string, ext: string)
    requires '^' !in base && '.' !in base && '^' !in ext && '.' !in ext
    ensures Sanitize(base + "." + ext) == base + "_" + ext
    ensures Sanitize("^" + base) == base
  {
    SanitizeConcat(base + ".", ext);
    SanitizeConcat(base, ".");
    SanitizeOneChar('.');
    SanitizeConcat("^", base);
    SanitizeOneChar('^');
    SanitizeIdempotent(base);
    SanitizeIdempotent(ext);
  }

  /**
   * The names the job produces for symbols of its universe.
   * Its inputs are parameters pinned to the example values by `requires`, so the solver treats each
   * literal as one term until the body splits it; stated on the literals directly, the proof
   * exceeds its resource budget.
   */
  lemma SanitizeExamples(reliance: string, nifty: string, mahindra: string, bajaj: string)
    requires reliance == "RELIANCE.NS" && nifty == "^NSEI" && mahindra == "M&M.NS" && bajaj == "BAJAJ-AUTO.NS"
    ensures Sanitize(reliance) == "RELIANCE_NS"
    ensures Sanitize(nifty) == "NSEI"
    ensures Sanitize(mahindra) == "M&M_NS"
    ensures Sanitize(bajaj) == "BAJAJ-AUTO_NS"
  {
    SanitizeReliance(reliance);
    assert nifty == "^" + "NSEI";
    SanitizeShapes("NSEI", "NS");
    assert mahindra == "M&M" + "." + "NS";
    SanitizeShapes("M&M", "NS");
    assert bajaj == "BAJAJ-AUTO" + "." + "NS";
    SanitizeShapes("BAJAJ-AUTO", "NS");
  }

  /** `RELIANCE.NS` sanitizes to `RELIANCE_NS`; the symbol is a parameter pinned by `requires`, as in SanitizeExamples. */
  lemma SanitizeReliance(symbol: string)
    requires symbol == "RELIANCE.NS"
    ensures Sanitize(symbol) == "RELIANCE_NS"
  {
    assert symbol == "RELIANCE" + "." + "NS";
    SanitizeShapes("RELIANCE", "NS");
  }

  /** The file name of the archived example day; the inputs are pinned by `requires`, as in SanitizeExamples. */
  lemma ArtifactNameExample(symbol: string, d: Date)
    requires symbol == "RELIANCE.NS" && d == Date(2026, 1, 14)
    ensures ArtifactName(symbol, d) == "RELIANCE_NS_2026_01_14.parquet"
  {
    SanitizeReliance(symbol);
    FormatDateExample(d);
  }
}
