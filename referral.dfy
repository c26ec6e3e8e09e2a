/** The additional-section scan both resolvers use to find the next nameserver. */
module Referral {
  import opened Dns
  import opened Address

  /** The address of the first A record of `extra`, if there is one. */
  function FirstA(extra: seq<RR>): (r: Option<IPv4>)
    ensures r.None? <==> forall k :: 0 <= k < |extra| ==> !extra[k].A?
    ensures r.Some? ==> exists k :: 0 <= k < |extra| && extra[k] == A(extra[k].name, r.value)
                                    && forall j :: 0 <= j < k ==> !extra[j].A?
  {
    if extra == [] then None
    else if extra[0].A? then Some(extra[0].ip)
    else
      var r := FirstA(extra[1..]);
      if r.Some? then FirstAShift(extra, r.value); r else r
  }

  /** An A record found after a leading non-A record is first in the whole section. */
  lemma FirstAShift(extra: seq<RR>, ip: IPv4)
    requires extra != [] && !extra[0].A?
    requires exists k :: 0 <= k < |extra[1..]| && extra[1..][k] == A(extra[1..][k].name, ip)
                         && forall j :: 0 <= j < k ==> !extra[1..][j].A?
    ensures exists k :: 0 <= k < |extra| && extra[k] == A(extra[k].name, ip)
                        && forall j :: 0 <= j < k ==> !extra[j].A?
  {
    var k :| 0 <= k < |extra[1..]| && extra[1..][k] == A(extra[1..][k].name, ip)
             && forall j :: 0 <= j < k ==> !extra[1..][j].A?;
    assert extra[k + 1] == A(extra[k + 1].name, ip);
    assert forall j :: 0 <= j < k + 1 ==> !extra[j].A? by {
      forall j | 0 <= j < k + 1 ensures !extra[j].A? {
        if j > 0 { assert extra[j] == extra[1..][j - 1]; }
      }
    }
  }

  /** The scan of the additional section: walks the records in order, stops at the
      first A record and takes its address as the next nameserver; when there is
      none, `found` is false and the nameserver is left as it was. */
  method ScanExtra(extra: seq<RR>, nameserver: string) returns (found: bool, next: string)
    ensures found <==> exists k :: 0 <= k < |extra| && extra[k].A?
    ensures found ==> FirstA(extra).Some? && next == DottedQuad(FirstA(extra).value)
    ensures !found ==> next == nameserver
  {
    found, next := false, nameserver;
    var i := 0;
    while i < |extra|
      invariant 0 <= i <= |extra|
      invariant forall j :: 0 <= j < i ==> !extra[j].A?
      invariant !found && next == nameserver
    {
      if extra[i].A? {
        next := DottedQuad(extra[i].ip);
        found := true;
        break;
      }
      i := i + 1;
    }
    if found {
      FirstAAt(extra, i);
    }
  }

  /** A record at `i` preceded by none: the scan's answer is the one at `i`. */
  lemma FirstAAt(extra: seq<RR>, i: nat)
    requires i < |extra| && extra[i].A?
    requires forall j :: 0 <= j < i ==> !extra[j].A?
    ensures FirstA(extra) == Some(extra[i].ip)
  {
    var r := FirstA(extra);
    var k :| 0 <= k < |extra| && extra[k] == A(extra[k].name, r.value)
             && forall j :: 0 <= j < k ==> !extra[j].A?;
    assert k == i;
  }
}
