/** The fixed collector vocabulary and the 'should be a collector' property
    callbacks that guard the two collector-list properties. */
module Collectors {
  import opened Wrappers

  /** COLLECTOR_LIST, in source order. */
  const CollectorList: seq<string> := [
    "arp", "bcache", "bonding", "buddyinfo", "conntrack", "cpu", "diskstats",
    "drbd", "edac", "entropy", "filefd", "filesystem", "gmond", "hwmon",
    "infiniband", "interrupts", "ipvs", "ksmd", "loadavg", "logind", "mdadm",
    "megacli", "meminfo", "meminfo_numa", "mountstats", "netdev", "netstat",
    "nfs", "ntp", "qdisc", "runit", "sockstat", "stat", "supervisord",
    "systemd", "tcpstat", "textfile", "time", "uname", "vmstat", "wifi", "xfs",
    "zfs", "timex"
  ]

  /** `COLLECTOR_LIST.include?`: exact, case-sensitive string equality. */
  predicate IsCollector(name: string): (b: bool)
    ensures b ==> |name| > 0 && 'a' <= name[0] <= 'z'
  {
    CollectorNamesStartLowerCase();
    name in CollectorList
  }

  /** What the callback demands of a list: every element is a collector. */
  ghost predicate AllCollectors(names: seq<string>) {
    forall i :: 0 <= i < |names| ==> IsCollector(names[i])
  }

  /** `collectors.all? { |element| COLLECTOR_LIST.include? element }`, element
      by element from the front. */
  function Accepts(names: seq<string>): (ok: bool)
    ensures ok <==> AllCollectors(names)
  {
    if |names| == 0 then true
    else IsCollector(names[0]) && Accepts(names[1..])
  }

  /** The same check as a loop that stops at the first unknown name. */
  method CheckCollectors(names: seq<string>) returns (ok: bool)
    ensures ok <==> AllCollectors(names)
    ensures !ok ==> exists i :: 0 <= i < |names| && !IsCollector(names[i])
  {
    var k := 0;
    while k < |names|
      invariant 0 <= k <= |names|
      invariant forall i :: 0 <= i < k ==> IsCollector(names[i])
    {
      if !IsCollector(names[k]) {
        return false;
      }
      k := k + 1;
    }
    return true;
  }

  /** The error Chef raises when a property callback rejects a value. */
  datatype ValidationError = ValidationError(property: string, callback: string)

  const ShouldBeACollector: string := "should be a collector"

  /** Setting a collector-list property. Chef runs the callback only on a value
      that is actually given; an unset (nil) property is never checked. */
  function ValidateProperty(property: string, value: Option<seq<string>>): (r: Result<Option<seq<string>>, ValidationError>)
    ensures r.Success? <==> (value.None? || AllCollectors(value.value))
    ensures r.Success? ==> r.value == value
    ensures r.Failure? ==> r.error == ValidationError(property, ShouldBeACollector)
  {
    match value
    case None => Success(value)
    case Some(names) =>
      if Accepts(names) then Success(value)
      else Failure(ValidationError(property, ShouldBeACollector))
  }

  lemma CollectorListSize()
    ensures |CollectorList| == 44
  {
  }

  /** Every collector name starts with a lower-case ASCII letter. */
  lemma CollectorNamesStartLowerCase()
    ensures forall i :: 0 <= i < |CollectorList| ==> |CollectorList[i]| > 0 && 'a' <= CollectorList[i][0] <= 'z'
  {
  }

  /** Membership is exact: a differently-cased name is not a collector. */
  lemma MembershipIsCaseSensitive()
    ensures IsCollector("cpu") && IsCollector("timex") && IsCollector("meminfo_numa")
    ensures !IsCollector("CPU") && !IsCollector("Timex") && !IsCollector(" cpu")
  {
    CollectorNamesStartLowerCase();
  }

  /** The callback accepts the empty list, and a list is accepted exactly when
      every one of its elements is; the rule is the same for both properties. */
  lemma {:induction false} AcceptsConcat(a: seq<string>, b: seq<string>)
    ensures Accepts(a + b) <==> Accepts(a) && Accepts(b)
    ensures Accepts([])
  {
    assert forall i :: 0 <= i < |a| ==> (a + b)[i] == a[i];
    assert forall i :: 0 <= i < |b| ==> (a + b)[|a| + i] == b[i];
  }
}
