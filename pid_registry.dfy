/**
 * The PID registry: one `pid|proc_name|localnet` line per spawned node, and
 * a reading of such a line, showing the line loses no information.
 */
module PidRegistry {
  import opened Wrappers
  import opened Decimal

  const NETWORK_LABEL: string := "localnet"
  const SEPARATOR: char := '|'

  /** A spawned process as the registry records it. */
  datatype PidRecord = PidRecord(pid: nat, procName: string)

  /** `f'{pid}|{proc_name}|localnet'`, without the line terminator. */
  function PidLine(pid: nat, procName: string): string {
    NatToString(pid) + [SEPARATOR] + procName + [SEPARATOR] + NETWORK_LABEL
  }

  /** The index of the first `c` in `s`, or `|s|` when there is none. */
  function IndexOf(s: string, c: char): (i: nat)
    ensures i <= |s|
    ensures i < |s| ==> s[i] == c
    ensures forall j :: 0 <= j < i ==> s[j] != c
  {
    if s == [] then 0
    else if s[0] == c then 0
    else 1 + IndexOf(s[1..], c)
  }

  /**
   * Read a registry line: the digits up to the first separator are the pid,
   * the line must end with `|localnet`, and what lies between is the name.
   */
  function ParsePidLine(line: string): Option<PidRecord> {
    var i := IndexOf(line, SEPARATOR);
    var suffix := [SEPARATOR] + NETWORK_LABEL;
    if 0 < i && i + 1 + |suffix| <= |line| && AllDigits(line[..i]) && line[|line| - |suffix|..] == suffix
    then Some(PidRecord(ParseNat(line[..i]), line[i + 1..|line| - |suffix|]))
    else None
  }

  lemma PidLineRoundTrip(pid: nat, procName: string)
    ensures ParsePidLine(PidLine(pid, procName)) == Some(PidRecord(pid, procName))
  {
    var digits := NatToString(pid);
    var line := PidLine(pid, procName);
    var suffix := [SEPARATOR] + NETWORK_LABEL;
    var i := IndexOf(line, SEPARATOR);
    assert line[|digits|] == SEPARATOR;
    assert i == |digits|;
    assert line[..i] == digits;
    assert line[|line| - |suffix|..] == suffix;
    assert line[i + 1..|line| - |suffix|] == procName;
    ParseNatToString(pid);
  }

  /** Different processes give different registry lines. */
  lemma PidLineInjective(a: PidRecord, b: PidRecord)
    ensures PidLine(a.pid, a.procName) == PidLine(b.pid, b.procName) ==> a == b
  {
    PidLineRoundTrip(a.pid, a.procName);
    PidLineRoundTrip(b.pid, b.procName);
  }
}
