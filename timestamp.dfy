/** The captured time and the two `strftime` renderings the generators
    take from it: the ISO-like stamp written into migration files
    ("%Y-%m-%dT%H:%M:%S:%f") and the stamp in migration file names
    ("%Y_%m_%dt%H_%M_%S_%f"). */
module Timestamp {
  import opened Base
  import opened Text

  type Year = y: int | 1 <= y <= 9999 witness 1
  type Month = m: int | 1 <= m <= 12 witness 1
  type Day = d: int | 1 <= d <= 31 witness 1
  type Hour = h: int | 0 <= h < 24
  type Minute = m: int | 0 <= m < 60
  type Second = s: int | 0 <= s < 60
  type Micro = u: int | 0 <= u < 1000000

  /** A `datetime` value, as `datetime.now()` returns it. */
  datatype Moment = Moment(year: Year, month: Month, day: Day, hour: Hour, minute: Minute, second: Second, micro: Micro)

  function Pow10(w: nat): nat {
    if w == 0 then 1 else 10 * Pow10(w - 1)
  }

  function DigitChar(d: nat): char
    requires d < 10
  {
    "0123456789"[d]
  }

  predicate IsDigit(c: char) {
    '0' <= c <= '9'
  }

  /** The last `w` decimal digits of `n`, zero-padded: strftime's
      fixed-width fields. */
  function Fixed(n: nat, w: nat): (s: string)
    ensures |s| == w
    ensures forall i :: 0 <= i < |s| ==> IsDigit(s[i])
  {
    if w == 0 then [] else Fixed(n / 10, w - 1) + [DigitChar(n % 10)]
  }

  predicate AllDigits(s: string) {
    forall i :: 0 <= i < |s| ==> IsDigit(s[i])
  }

  function DigitValue(c: char): nat
    requires IsDigit(c)
  {
    (c as int) - ('0' as int)
  }

  /** The number a string of decimal digits denotes. */
  function Value(s: string): nat
    requires AllDigits(s)
  {
    if s == [] then 0 else 10 * Value(s[..|s| - 1]) + DigitValue(s[|s| - 1])
  }

  /** Reading the digits back gives the number, when it fits the width. */
  lemma {:induction false} FixedRoundTrip(n: nat, w: nat)
    requires n < Pow10(w)
    ensures Value(Fixed(n, w)) == n
  {
    if w > 0 {
      var s := Fixed(n, w);
      assert s[..|s| - 1] == Fixed(n / 10, w - 1);
      FixedRoundTrip(n / 10, w - 1);
      assert DigitValue(s[|s| - 1]) == n % 10;
    }
  }

  /** `strftime("%Y-%m-%dT%H:%M:%S:%f")`. */
  function IsoStamp(m: Moment): string {
    Fixed(m.year, 4) + "-" + Fixed(m.month, 2) + "-" + Fixed(m.day, 2) + "T"
    + Fixed(m.hour, 2) + ":" + Fixed(m.minute, 2) + ":" + Fixed(m.second, 2) + ":" + Fixed(m.micro, 6)
  }

  /** `strftime("%Y_%m_%dt%H_%M_%S_%f")`. */
  function FileStamp(m: Moment): string {
    Fixed(m.year, 4) + "_" + Fixed(m.month, 2) + "_" + Fixed(m.day, 2) + "t"
    + Fixed(m.hour, 2) + "_" + Fixed(m.minute, 2) + "_" + Fixed(m.second, 2) + "_" + Fixed(m.micro, 6)
  }

  /** Reads a file stamp back into its fields. */
  function ParseFileStamp(s: string): Option<Moment> {
    if |s| != 26 then None
    else
      var ys, mos, ds, hs := s[0..4], s[5..7], s[8..10], s[11..13];
      var mis, ses, us := s[14..16], s[17..19], s[20..26];
      if !(AllDigits(ys) && AllDigits(mos) && AllDigits(ds) && AllDigits(hs) && AllDigits(mis) && AllDigits(ses) && AllDigits(us)) then None
      else
        var y, mo, d, h := Value(ys), Value(mos), Value(ds), Value(hs);
        var mi, se, u := Value(mis), Value(ses), Value(us);
        if 1 <= y <= 9999 && 1 <= mo <= 12 && 1 <= d <= 31 && h < 24 && mi < 60 && se < 60 && u < 1000000
        then Some(Moment(y, mo, d, h, mi, se, u))
        else None
  }

  /** Where each field of the file stamp sits. */
  lemma FileStampFields(m: Moment)
    ensures var s := FileStamp(m);
      |s| == 26
      && s[0..4] == Fixed(m.year, 4) && s[5..7] == Fixed(m.month, 2) && s[8..10] == Fixed(m.day, 2)
      && s[11..13] == Fixed(m.hour, 2) && s[14..16] == Fixed(m.minute, 2) && s[17..19] == Fixed(m.second, 2)
      && s[20..26] == Fixed(m.micro, 6)
  {
    var s := FileStamp(m);
    var y, mo, d, h := Fixed(m.year, 4), Fixed(m.month, 2), Fixed(m.day, 2), Fixed(m.hour, 2);
    var mi, se, u := Fixed(m.minute, 2), Fixed(m.second, 2), Fixed(m.micro, 6);
    var p1 := y + "_";
    var p2 := p1 + mo + "_";
    var p3 := p2 + d + "t";
    var p4 := p3 + h + "_";
    var p5 := p4 + mi + "_";
    var p6 := p5 + se + "_";
    assert s == p6 + u;
    assert s[..20] == p6;
    assert s[20..26] == u;
    assert p6[..19] == p5 + se;
    assert s[17..19] == se;
    assert p5[..16] == p4 + mi;
    assert s[14..16] == mi;
    assert p4[..13] == p3 + h;
    assert s[11..13] == h;
    assert p3[..10] == p2 + d;
    assert s[8..10] == d;
    assert p2[..7] == p1 + mo;
    assert s[5..7] == mo;
    assert s[0..4] == y;
  }

  /** The file stamp loses nothing: parsing it gives the moment back, so
      two different moments never share a migration file name. */
  lemma FileStampRoundTrip(m: Moment)
    ensures ParseFileStamp(FileStamp(m)) == Some(m)
  {
    FileStampFields(m);
    ParseFields(FileStamp(m), m);
  }

  /** A 26-character text holding the fields of `m` where the file stamp
      puts them parses back to `m`. */
  lemma ParseFields(s: string, m: Moment)
    requires |s| == 26
    requires s[0..4] == Fixed(m.year, 4) && s[5..7] == Fixed(m.month, 2) && s[8..10] == Fixed(m.day, 2)
    requires s[11..13] == Fixed(m.hour, 2) && s[14..16] == Fixed(m.minute, 2) && s[17..19] == Fixed(m.second, 2)
    requires s[20..26] == Fixed(m.micro, 6)
    ensures ParseFileStamp(s) == Some(m)
  {
    assert Pow10(2) == 100 && Pow10(4) == 10000 && Pow10(6) == 1000000;
    FixedRoundTrip(m.year, 4);
    FixedRoundTrip(m.month, 2);
    FixedRoundTrip(m.day, 2);
    FixedRoundTrip(m.hour, 2);
    FixedRoundTrip(m.minute, 2);
    FixedRoundTrip(m.second, 2);
    FixedRoundTrip(m.micro, 6);
    var ys, mos, ds, hs := s[0..4], s[5..7], s[8..10], s[11..13];
    var mis, ses, us := s[14..16], s[17..19], s[20..26];
    assert AllDigits(ys) && AllDigits(mos) && AllDigits(ds) && AllDigits(hs) && AllDigits(mis) && AllDigits(ses) && AllDigits(us);
    assert Value(ys) == m.year && Value(mos) == m.month && Value(ds) == m.day && Value(hs) == m.hour;
    assert Value(mis) == m.minute && Value(ses) == m.second && Value(us) == m.micro;
  }

  lemma FileStampInjective(a: Moment, b: Moment)
    requires FileStamp(a) == FileStamp(b)
    ensures a == b
  {
    FileStampRoundTrip(a);
    FileStampRoundTrip(b);
  }

  // ---------------------------------------------------------------------
  // Migration names

  const MigrationMarker: string := "{migrations_timestamp}"

  /** `f"{prefix}_{stamp}.py"`. */
  function MigrationName(prefix: string, now: Moment): string {
    prefix + "_" + FileStamp(now) + ".py"
  }

  /** The example and auth migrations taken at one moment differ only
      in their prefix: they are never the same name and share the stamp
      and the suffix. */
  lemma MigrationNamesDistinct(now: Moment)
    ensures MigrationName("primary", now) != MigrationName("auth", now)
    ensures MigrationName("primary", now)[|"primary_"|..] == MigrationName("auth", now)[|"auth_"|..] == FileStamp(now) + ".py"
  {
    var stamp := FileStamp(now) + ".py";
    assert MigrationName("primary", now) == "primary_" + stamp;
    assert MigrationName("auth", now) == "auth_" + stamp;
    assert ("primary_" + stamp)[0] == 'p';
    assert ("auth_" + stamp)[0] == 'a';
  }

  /** The ISO stamp holds digits and the separators "-", "T" and ":"
      only. */
  lemma IsoStampChars(now: Moment)
    ensures forall i :: 0 <= i < |IsoStamp(now)| ==> IsDigit(IsoStamp(now)[i]) || IsoStamp(now)[i] in "-T:"
  {
  }

  /** No character of the ISO stamp is one of the marker's, so replacing
      the marker by the stamp leaves no marker behind. */
  lemma IsoStampRemovesMarker(content: string, now: Moment)
    ensures !Occurs(ReplaceAll(content, MigrationMarker, IsoStamp(now)), MigrationMarker)
  {
    var s := IsoStamp(now);
    IsoStampChars(now);
    forall i | 0 <= i < |s| ensures s[i] !in MigrationMarker {
      assert IsDigit(s[i]) || s[i] in "-T:";
    }
    ReplaceRemoves(content, MigrationMarker, s);
  }
}
