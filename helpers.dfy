/**
 * The small pure helpers of the collector: the state-letter table, the unit
 * choice for memory sizes, the HH:MM:SS rendering of a duration, and the
 * account-name lookup in the password file.
 */
module Helpers {
  import opened Text
  import opened Wrappers
  import opened Records
  import opened ProcFs

  /** The table of `_get_process_status`: kernel state letter to label. */
  const StatusNames: map<string, string> :=
    map["R" := "Running", "S" := "Sleeping", "D" := "Uninterruptible Sleep",
        "T" := "Stopped", "Z" := "Zombie"]

  /** `_get_process_status`: the label of a state letter, "Unknown" for any other text. */
  function GetProcessStatus(code: string): (text: string)
    ensures text != "Unknown" <==> code in StatusNames
    ensures text == "Unknown" || text in StatusNames.Values
  {
    if code in StatusNames then StatusNames[code] else "Unknown"
  }

  /** The state letter a label stands for, the inverse of the table. */
  function StatusCode(text: string): (code: Option<string>)
  {
    if text == "Running" then Some("R")
    else if text == "Sleeping" then Some("S")
    else if text == "Uninterruptible Sleep" then Some("D")
    else if text == "Stopped" then Some("T")
    else if text == "Zombie" then Some("Z")
    else None
  }

  /** Known letters survive the round trip through their label; others map to "Unknown". */
  lemma StatusRoundTrip(code: string)
    ensures code in StatusNames ==> StatusCode(GetProcessStatus(code)) == Some(code)
    ensures code !in StatusNames ==> StatusCode(GetProcessStatus(code)) == None
  {
  }

  /** The unit branch of `_kb_to_mb_gb`: GB from 1024*1024 KiB, MB from 1024 KiB, KB below. */
  function KbToQuantity(kb: int): (q: Quantity)
    ensures q.Sized? && q.kb == kb
  {
    Sized(kb, if kb >= 1024 then (if kb >= 1024 * 1024 then GB else MB) else KB)
  }

  /** KiB per unit. */
  function UnitFactor(u: Unit): (f: nat)
    ensures f >= 1
  {
    match u
    case KB => 1
    case MB => 1024
    case GB => 1024 * 1024
  }

  /** The number shown in front of the unit: the KiB count divided by the unit's factor. */
  function ShownValue(q: Quantity): real
    requires q.Sized?
  {
    q.kb as real / UnitFactor(q.unit) as real
  }

  /**
   * The chosen unit is the largest one that keeps the shown number at
   * least 1 (for MB it stays below 1024), and no magnitude is lost.
   */
  lemma KbToQuantityScale(kb: int)
    ensures var q := KbToQuantity(kb);
      && (q.unit == KB <==> kb < 1024)
      && (q.unit == GB <==> kb >= 1024 * 1024)
      && (q.unit != KB ==> ShownValue(q) >= 1.0)
      && (q.unit == MB ==> ShownValue(q) < 1024.0)
      && ShownValue(q) * UnitFactor(q.unit) as real == kb as real
  {
  }

  /** The hours, minutes and seconds `_seconds_to_hhmmss` computes with floor division and modulo. */
  function HmsOf(seconds: real): (hms: (int, int, int))
    ensures 0 <= hms.1 < 60 && 0 <= hms.2 < 60
    ensures hms.0 * 3600 + hms.1 * 60 + hms.2 == seconds.Floor
    ensures seconds >= 0.0 ==> hms.0 >= 0
  {
    var hours := (seconds / 3600.0).Floor;
    var remaining := seconds - 3600.0 * hours as real;
    var minutes := (remaining / 60.0).Floor;
    var secs := (remaining - 60.0 * minutes as real).Floor;
    (hours, minutes, secs)
  }

  /** `f"{n:02d}"`: at least two characters, zero-padded, sign first. */
  function Pad2(n: int): (s: string)
    ensures n >= 0 ==> |s| >= 2 && IsDigits(s) && ParseNat(s) == n
  {
    if 0 <= n < 10 then
      var s := "0" + NatToString(n);
      assert s[..|s| - 1] == "0" && s[|s| - 1] == DigitChar(n);
      assert ParseNat("0") == ParseNat("") * 10 + DigitValue('0') == 0;
      assert ParseNat(s) == ParseNat("0") * 10 + DigitValue(DigitChar(n));
      s
    else if n >= 10 then
      ParseNatToString(n);
      NatToString(n)
    else
      "-" + NatToString(-n)
  }

  /** `_seconds_to_hhmmss`: `HH:MM:SS`. */
  function SecondsToHhmmss(seconds: real): (text: string)
    ensures seconds >= 0.0 ==> |text| >= 8
  {
    var hms := HmsOf(seconds);
    Pad2(hms.0) + ":" + Pad2(hms.1) + ":" + Pad2(hms.2)
  }

  /**
   * For a non-negative duration the text is three ':'-separated fields of at
   * least two digits that read back as hours, minutes below 60 and seconds
   * below 60 adding up to the whole seconds.
   */
  lemma SecondsToHhmmssFields(seconds: real)
    requires seconds >= 0.0
    ensures var fields := SplitOn(SecondsToHhmmss(seconds), ':');
      && |fields| == 3
      && (forall k :: 0 <= k < 3 ==> |fields[k]| >= 2 && IsDigits(fields[k]))
      && ParseNat(fields[1]) < 60 && ParseNat(fields[2]) < 60
      && ParseNat(fields[0]) * 3600 + ParseNat(fields[1]) * 60 + ParseNat(fields[2]) == seconds.Floor
  {
    var hms := HmsOf(seconds);
    var h, m, s := Pad2(hms.0), Pad2(hms.1), Pad2(hms.2);
    SplitThreeFields(h, m, s);
    var fields := SplitOn(SecondsToHhmmss(seconds), ':');
    assert fields == [h, m, s];
    assert fields[0] == h && fields[1] == m && fields[2] == s;
    assert ParseNat(h) == hms.0 && ParseNat(m) == hms.1 && ParseNat(s) == hms.2;
    assert ParseNat(fields[0]) * 3600 + ParseNat(fields[1]) * 60 + ParseNat(fields[2]) == seconds.Floor;
  }

  /** Three fields without ':' joined by ':' split back into those three fields. */
  lemma SplitThreeFields(h: string, m: string, s: string)
    requires ':' !in h && ':' !in m && ':' !in s
    ensures SplitOn(h + ":" + m + ":" + s, ':') == [h, m, s]
  {
    SplitOnAfterField(m, ':', s);
    assert SplitOn(s, ':') == [s];
    SplitOnAfterField(h, ':', m + ":" + s);
    assert h + ":" + m + ":" + s == h + [':'] + (m + [':'] + s);
  }

  /** The first line of the password file that contains `uid` anywhere, cut at its first ':'. */
  function FirstMatchingAccount(lines: seq<string>, uid: string): (name: string)
    ensures (forall k :: 0 <= k < |lines| ==> !Contains(lines[k], uid)) ==> name == uid
  {
    if lines == [] then uid
    else if Contains(lines[0], uid) then SplitOn(lines[0], ':')[0]
    else FirstMatchingAccount(lines[1..], uid)
  }

  /** `_uid_to_username`: scan the password file, falling back to the uid text. */
  function UidToUsername(fs: Proc, uid: string): (name: string)
    ensures PasswdPath !in fs.files ==> name == uid
    ensures PasswdPath in fs.files && (forall l :: l in Lines(ReadFile(fs, PasswdPath)) ==> !Contains(l, uid)) ==> name == uid
  {
    if PasswdPath in fs.files then FirstMatchingAccount(Lines(ReadFile(fs, PasswdPath)), uid) else uid
  }

  /**
   * The name returned is the text before the first ':' of the FIRST line in
   * which the uid text occurs as a substring, anywhere in the line.
   */
  lemma {:induction false} FirstMatchingAccountIsFirst(lines: seq<string>, uid: string, k: nat)
    requires k < |lines| && Contains(lines[k], uid)
    requires forall j :: 0 <= j < k ==> !Contains(lines[j], uid)
    ensures FirstMatchingAccount(lines, uid) == SplitOn(lines[k], ':')[0]
  {
    if k > 0 {
      FirstMatchingAccountIsFirst(lines[1..], uid, k - 1);
    }
  }
}
