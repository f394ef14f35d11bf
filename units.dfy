/**
 * Unit conversion and the used-percent figures of glowline.py, which it
 * computes once, when the script is loaded, from one memory reading and one
 * disk reading.
 */
module Units {
  import opened Wrappers

  const KiB: nat := 1024
  const GiB: nat := 1073741824  // 1024 * 1024 * 1024

  /** Whole gibibytes in a byte count, rounded down. */
  function ToGiB(bytes: nat): (g: nat)
    ensures g * GiB <= bytes < (g + 1) * GiB
  {
    bytes / GiB
  }

  lemma ToGiBMonotone(a: nat, b: nat)
    requires a <= b
    ensures ToGiB(a) <= ToGiB(b)
  {
  }

  /** Used share of a total, in whole percent rounded down, 0 when the total
      is 0 (the zero guard of glowline.py lines 20 and 31). Computed exactly on
      integers; the script divides in floating point, which can land one lower. */
  function Percent(used: nat, total: nat): (p: nat)
    ensures total == 0 ==> p == 0
    ensures total > 0 ==> p * total <= used * 100 < (p + 1) * total
  {
    if total == 0 then 0 else used * 100 / total
  }

  lemma PercentAtMostHundred(used: nat, total: nat)
    requires used <= total
    ensures Percent(used, total) <= 100
  {
  }

  /** The figures the script keeps for memory or for the disk, in GiB. */
  datatype Usage = Usage(total: nat, free: nat, used: nat, percent: nat)

  /** The four figures kept for memory (free is the available figure) or for
      the disk, from one reading in bytes. */
  function DeriveUsage(totalBytes: nat, freeBytes: nat, usedBytes: nat): (u: Usage)
    ensures u.total == ToGiB(totalBytes) && u.free == ToGiB(freeBytes) && u.used == ToGiB(usedBytes)
    ensures u.percent == Percent(u.used, u.total)
  {
    var total := ToGiB(totalBytes);
    var used := ToGiB(usedBytes);
    Usage(total, ToGiB(freeBytes), used, Percent(used, total))
  }

  /** The zero guard: a total under one GiB truncates to 0 GiB, and then the
      percent is 0 whatever the used figure is. */
  lemma SmallTotalGivesZeroPercent(totalBytes: nat, freeBytes: nat, usedBytes: nat)
    requires totalBytes < GiB
    ensures DeriveUsage(totalBytes, freeBytes, usedBytes).total == 0
    ensures DeriveUsage(totalBytes, freeBytes, usedBytes).percent == 0
  {
  }

  /** Whenever the reading has used <= total, the derived percent is in
      [0, 100], although both are truncated to GiB first. */
  lemma UsagePercentBounded(totalBytes: nat, freeBytes: nat, usedBytes: nat)
    requires usedBytes <= totalBytes
    ensures DeriveUsage(totalBytes, freeBytes, usedBytes).used <= DeriveUsage(totalBytes, freeBytes, usedBytes).total
    ensures DeriveUsage(totalBytes, freeBytes, usedBytes).percent <= 100
  {
    ToGiBMonotone(usedBytes, totalBytes);
    PercentAtMostHundred(ToGiB(usedBytes), ToGiB(totalBytes));
  }

  /** The disk queried: the system drive's root on Windows ("nt"), else "/".
      `systemDrive` is what the environment lookup of the SystemDrive
      variable returns (the OS matches the name without regard to case);
      `None` when it is unset. */
  function DiskPath(osName: string, systemDrive: Option<string>): (path: string)
    ensures osName != "nt" ==> path == "/"
    ensures osName == "nt" ==> |path| >= 1 && path[|path| - 1] == '\\'
    ensures osName == "nt" && systemDrive.None? ==> path == "C:\\"
    ensures osName == "nt" && systemDrive.Some? ==> path == systemDrive.value + "\\"
  {
    if osName == "nt" then
      (match systemDrive
       case Some(drive) => drive
       case None => "C:") + "\\"
    else
      "/"
  }
}
