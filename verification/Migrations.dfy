/**
 Choosing the SQL of a migration by the checksum that was recorded when it ran, so that
 a checkout with LF and one with CRLF line ends serve the same databases.
 */
module Migrations {
  import opened Wrappers

  type Byte = b: int | 0 <= b < 256

  type Checksum = seq<Byte>

  /** Replaces each CR LF by LF, from left to right. */
  function Collapse(s: string): string {
    if |s| < 2 then s
    else if s[0] == '\r' && s[1] == '\n' then "\n" + Collapse(s[2..])
    else [s[0]] + Collapse(s[1..])
  }

  /** Replaces each LF by CR LF. */
  function Expand(s: string): string {
    if s == "" then "" else (if s[0] == '\n' then "\r\n" else [s[0]]) + Expand(s[1..])
  }

  predicate HasCrLf(s: string) {
    exists i :: 0 <= i < |s| - 1 && s[i] == '\r' && s[i + 1] == '\n'
  }

  /** Expanding and collapsing again gives back every text, also one that has CR LF already. */
  lemma {:induction false} CollapseExpand(s: string)
    ensures Collapse(Expand(s)) == s
  {
    if s != "" {
      CollapseExpand(s[1..]);
      var tail := Expand(s[1..]);
      if s[0] == '\n' {
        assert Expand(s) == ['\r', '\n'] + tail && Expand(s)[2..] == tail;
      } else {
        ExpandStart(s[1..]);
        assert Expand(s) == [s[0]] + tail && Expand(s)[1..] == tail;
      }
      assert s == [s[0]] + s[1..];
    }
  }

  lemma ExpandStart(s: string)
    ensures Expand(s) == "" <==> s == ""
    ensures Expand(s) != "" ==> Expand(s)[0] != '\n'
  {}

  /** Collapsing leaves a text alone exactly when it has no CR LF. */
  lemma {:induction false} CollapseFixedIff(s: string)
    ensures |Collapse(s)| <= |s|
    ensures Collapse(s) == s <==> !HasCrLf(s)
  {
    if |s| >= 2 {
      if s[0] == '\r' && s[1] == '\n' {
        CollapseFixedIff(s[2..]);
        assert |Collapse(s)| < |s|;
      } else {
        CollapseFixedIff(s[1..]);
        assert s == [s[0]] + s[1..];
        assert Collapse(s) == s <==> Collapse(s[1..]) == s[1..] by {
          assert Collapse(s)[1..] == Collapse(s[1..]);
        }
        assert HasCrLf(s) <==> HasCrLf(s[1..]) by {
          if i :| 0 <= i < |s| - 1 && s[i] == '\r' && s[i + 1] == '\n' {
            assert s[1..][i - 1] == '\r' && s[1..][i] == '\n';
          }
          if i :| 0 <= i < |s[1..]| - 1 && s[1..][i] == '\r' && s[1..][i + 1] == '\n' {
            assert s[i + 1] == '\r' && s[i + 2] == '\n';
          }
        }
      }
    }
  }

  // Choosing.

  datatype Migration = Migration(version: nat, description: string, sql: string)

  datatype Error = VersionMismatch(version: nat)

  function Lf(m: Migration): Migration {
    m.(sql := Collapse(m.sql))
  }

  function CrLf(m: Migration): Migration {
    m.(sql := Expand(Collapse(m.sql)))
  }

  /** `hash` is the digest of a text, about which nothing is assumed. */
  function Compatible(hash: string -> Checksum, m: Migration, applied: Option<Checksum>): Result<Migration, Error> {
    if applied.None? then Success(Lf(m))
    else if hash(Lf(m).sql) == applied.value then Success(Lf(m))
    else if hash(CrLf(m).sql) == applied.value then Success(CrLf(m))
    else Failure(VersionMismatch(m.version))
  }

  /** A recorded checksum is accepted exactly when it is that of the LF or of the CR LF text,
      and then the chosen migration reproduces it, with the LF text if that does. */
  lemma AcceptedIff(hash: string -> Checksum, m: Migration, checksum: Checksum)
    ensures var r := Compatible(hash, m, Some(checksum));
      (r.Success? <==> checksum == hash(Collapse(m.sql)) || checksum == hash(Expand(Collapse(m.sql))))
      && (r.Success? ==> hash(r.value.sql) == checksum && r.value == m.(sql := r.value.sql))
      && (r.Success? ==> r.value.sql == Collapse(m.sql) || Collapse(r.value.sql) == Collapse(m.sql))
      && (r.Success? && checksum == hash(Collapse(m.sql)) ==> r.value.sql == Collapse(m.sql))
      && (r.Failure? ==> r.error == VersionMismatch(m.version))
  {
    CollapseExpand(Collapse(m.sql));
  }

  /** A migration without a record is taken with the LF text; one with a record is judged by
      the checksum recorded under its own version. */
  lemma RecordDecides(hash: string -> Checksum, m: Migration, applied: map<nat, Checksum>)
    ensures var r := Compatible(hash, m, Recorded(applied, m));
      (m.version !in applied ==> r == Success(m.(sql := Collapse(m.sql))))
      && (m.version in applied ==>
            (r.Success? <==> applied[m.version] in {hash(Collapse(m.sql)), hash(Expand(Collapse(m.sql)))}))
      && (r.Success? && m.version in applied ==> hash(r.value.sql) == applied[m.version])
  {
    if m.version in applied { AcceptedIff(hash, m, applied[m.version]); }
  }

  /** Two checkouts of a migration choose alike for every possible history exactly when their
      texts collapse to the same. */
  ghost predicate ChooseAlike(hash: string -> Checksum, a: Migration, b: Migration) {
    forall applied :: Compatible(hash, a, applied) == Compatible(hash, b, applied)
  }

  lemma ChooseAlikeIff(hash: string -> Checksum, a: Migration, b: Migration)
    requires a.version == b.version && a.description == b.description
    ensures ChooseAlike(hash, a, b) <==> Collapse(a.sql) == Collapse(b.sql)
  {
    if ChooseAlike(hash, a, b) {
      assert Compatible(hash, a, None) == Compatible(hash, b, None);
    }
  }

  /** In particular a checkout with LF and its CR LF copy choose alike exactly when the LF
      one contains no CR LF. */
  lemma PortableIff(hash: string -> Checksum, m: Migration)
    ensures ChooseAlike(hash, m, m.(sql := Expand(m.sql))) <==> !HasCrLf(m.sql)
  {
    ChooseAlikeIff(hash, m, m.(sql := Expand(m.sql)));
    CollapseExpand(m.sql);
    CollapseFixedIff(m.sql);
  }

  // The doctor of the launcher, which compares hexadecimal text.

  function HexDigit(d: nat): char
    requires d < 16
  {
    "0123456789abcdef"[d]
  }

  function ToHex(s: Checksum): (text: string)
    ensures |text| == 2 * |s|
  {
    if s == [] then "" else [HexDigit(s[0] / 16), HexDigit(s[0] % 16)] + ToHex(s[1..])
  }

  lemma DigitInjective(a: nat, b: nat)
    requires a < 16 && b < 16 && HexDigit(a) == HexDigit(b)
    ensures a == b
  {}

  lemma {:induction false} HexInjective(a: Checksum, b: Checksum)
    requires ToHex(a) == ToHex(b)
    ensures a == b
  {
    if a != [] && b != [] {
      assert ToHex(a)[0] == ToHex(b)[0] && ToHex(a)[1] == ToHex(b)[1];
      DigitInjective(a[0] / 16, b[0] / 16);
      DigitInjective(a[0] % 16, b[0] % 16);
      assert ToHex(a)[2..] == ToHex(a[1..]) && ToHex(b)[2..] == ToHex(b[1..]);
      HexInjective(a[1..], b[1..]);
      assert a == [a[0]] + a[1..] && b == [b[0]] + b[1..];
    }
  }

  datatype Verdict = LfVerdict | CrLfVerdict | Unknown | Dirty | MissingSource

  datatype HistoryRow = HistoryRow(version: nat, success: string, hex: string)

  type Sources = map<nat, string>

  function Diagnose(hash: string -> Checksum, sources: Sources, row: HistoryRow): Verdict {
    if row.success != "t" then Dirty
    else if row.version !in sources then MissingSource
    else
      var lf := Collapse(sources[row.version]);
      if row.hex == ToHex(hash(lf)) then LfVerdict
      else if row.hex == ToHex(hash(Expand(lf))) then CrLfVerdict
      else Unknown
  }

  /** For a row that ran successfully and whose file is known, the doctor says LF, CR LF or
      unknown exactly when the server chooses the LF text, the CR LF text, or refuses. */
  lemma DoctorAgrees(hash: string -> Checksum, sources: Sources, m: Migration, checksum: Checksum)
    requires m.version in sources && sources[m.version] == m.sql
    ensures var verdict := Diagnose(hash, sources, HistoryRow(m.version, "t", ToHex(checksum)));
      var chosen := Compatible(hash, m, Some(checksum));
      (verdict.LfVerdict? <==> hash(Lf(m).sql) == checksum) && (verdict.Unknown? <==> chosen.Failure?)
      && (verdict.LfVerdict? ==> chosen == Success(Lf(m))) && (verdict.CrLfVerdict? ==> chosen == Success(CrLf(m)))
      && !verdict.Dirty? && !verdict.MissingSource?
  {
    var lf := Collapse(m.sql);
    if ToHex(checksum) == ToHex(hash(lf)) { HexInjective(checksum, hash(lf)); }
    if ToHex(checksum) == ToHex(hash(Expand(lf))) { HexInjective(checksum, hash(Expand(lf))); }
  }

  /** Each verdict, row by row: a run that failed comes first, then a file that is missing, and
      then the recorded text decides, LF before CR LF. */
  lemma DiagnoseIff(hash: string -> Checksum, sources: Sources, row: HistoryRow)
    ensures var verdict := Diagnose(hash, sources, row);
      var ran := row.success == "t";
      var text := if row.version in sources then Some(Collapse(sources[row.version])) else None;
      (verdict.Dirty? <==> !ran) && (verdict.MissingSource? <==> ran && text.None?)
      && (verdict.LfVerdict? <==> ran && text.Some? && Written(hash(text.value), row.hex))
      && (verdict.CrLfVerdict? <==>
            ran && text.Some? && !Written(hash(text.value), row.hex) && Written(hash(Expand(text.value)), row.hex))
  {
    if row.version in sources {
      WrittenIff(hash(Collapse(sources[row.version])), row.hex);
      WrittenIff(hash(Expand(Collapse(sources[row.version]))), row.hex);
    }
  }

  /** The text gives each byte of the checksum by two digits, lower-case, high one first. */
  ghost predicate Written(s: Checksum, hex: string) {
    |hex| == 2 * |s|
    && forall i :: 0 <= i < |s| ==> Nibble(hex[2 * i], s[i] / 16) && Nibble(hex[2 * i + 1], s[i] % 16)
  }

  predicate Nibble(c: char, d: nat) {
    if d < 10 then c as int == '0' as int + d else c as int == 'a' as int + d - 10
  }

  lemma NibbleIff(c: char, d: nat)
    requires d < 16
    ensures Nibble(c, d) <==> c == HexDigit(d)
  {}

  lemma WrittenFirst(s: Checksum, hex: string)
    requires s != [] && |hex| >= 2
    ensures Written(s, hex) <==>
      Nibble(hex[0], s[0] / 16) && Nibble(hex[1], s[0] % 16) && Written(s[1..], hex[2..])
  {
    hide Nibble;
    var rest, tail := s[1..], hex[2..];
    if Written(s, hex) {
      assert Nibble(hex[2 * 0], s[0] / 16) && Nibble(hex[2 * 0 + 1], s[0] % 16);
      forall i | 0 <= i < |rest| ensures Nibble(tail[2 * i], rest[i] / 16) && Nibble(tail[2 * i + 1], rest[i] % 16) {
        assert Nibble(hex[2 * (i + 1)], s[i + 1] / 16) && Nibble(hex[2 * (i + 1) + 1], s[i + 1] % 16);
      }
    }
    if Nibble(hex[0], s[0] / 16) && Nibble(hex[1], s[0] % 16) && Written(rest, tail) {
      forall i | 0 <= i < |s| ensures Nibble(hex[2 * i], s[i] / 16) && Nibble(hex[2 * i + 1], s[i] % 16) {
        if i > 0 {
          assert Nibble(tail[2 * (i - 1)], rest[i - 1] / 16);
          assert Nibble(tail[2 * (i - 1) + 1], rest[i - 1] % 16);
        }
      }
    }
  }

  lemma {:induction false} WrittenIff(s: Checksum, hex: string)
    ensures hex == ToHex(s) <==> Written(s, hex)
  {
    if s != [] && |hex| >= 2 {
      hide Nibble, HexDigit, Written;
      WrittenIff(s[1..], hex[2..]);
      WrittenFirst(s, hex);
      NibbleIff(hex[0], s[0] / 16);
      NibbleIff(hex[1], s[0] % 16);
      assert hex == [hex[0], hex[1]] + hex[2..];
      assert ToHex(s)[2..] == ToHex(s[1..]);
    }
  }

  method MigrationChecksumReport(hash: string -> Checksum, sources: Sources, history: seq<HistoryRow>)
    returns (report: seq<(HistoryRow, Verdict)>)
    ensures |report| == |history|
    ensures forall i :: 0 <= i < |history| ==> report[i] == (history[i], Diagnose(hash, sources, history[i]))
  {
    report := [];
    for i := 0 to |history|
      invariant |report| == i
      invariant forall j :: 0 <= j < i ==> report[j] == (history[j], Diagnose(hash, sources, history[j]))
    {
      var row := history[i];
      var status := Unknown;
      if row.success != "t" {
        status := Dirty;
      } else if row.version !in sources {
        status := MissingSource;
      } else {
        var lf := Collapse(sources[row.version]);
        if row.hex == ToHex(hash(lf)) { status := LfVerdict; }
        else if row.hex == ToHex(hash(Expand(lf))) { status := CrLfVerdict; }
      }
      report := report + [(row, status)];
    }
  }

  /** The whole selection stops at the first migration whose recorded checksum is neither. */
  method SelectAll(hash: string -> Checksum, embedded: seq<Migration>, applied: map<nat, Checksum>)
    returns (r: Result<seq<Migration>, Error>)
    ensures r.Success? <==>
      forall i :: 0 <= i < |embedded| ==> Compatible(hash, embedded[i], Recorded(applied, embedded[i])).Success?
    ensures r.Failure? ==>
      exists i :: FirstRefused(hash, embedded, applied, i) && r.error == VersionMismatch(embedded[i].version)
    ensures r.Success? ==> |r.value| == |embedded|
    ensures r.Success? ==> forall i :: 0 <= i < |embedded| ==>
      i < |r.value| && Compatible(hash, embedded[i], Recorded(applied, embedded[i])) == Success(r.value[i])
  {
    var chosen: seq<Migration> := [];
    for i := 0 to |embedded|
      invariant |chosen| == i
      invariant forall j :: 0 <= j < i ==>
        Compatible(hash, embedded[j], Recorded(applied, embedded[j])) == Success(chosen[j])
    {
      var m := Compatible(hash, embedded[i], Recorded(applied, embedded[i]));
      if m.Failure? {
        assert FirstRefused(hash, embedded, applied, i);
        return Failure(m.error);
      }
      chosen := chosen + [m.value];
    }
    return Success(chosen);
  }

  ghost predicate FirstRefused(hash: string -> Checksum, embedded: seq<Migration>, applied: map<nat, Checksum>,
                               i: int) {
    0 <= i < |embedded| && Compatible(hash, embedded[i], Recorded(applied, embedded[i])).Failure?
    && forall j :: 0 <= j < i ==> Compatible(hash, embedded[j], Recorded(applied, embedded[j])).Success?
  }

  function Recorded(applied: map<nat, Checksum>, m: Migration): Option<Checksum> {
    if m.version in applied then Some(applied[m.version]) else None
  }
}
