/**
 * The device directory and the rule that resolves a target identifier
 * (an `arn`) to the devices a message is delivered to.
 *
 * The relational store is modelled as two sequences in the store's native
 * order; `query(...).filter_by(arn=arn).first()` is the first element of the
 * sequence whose `arn` equals the identifier exactly.
 */
module Endpoints {
  import opened Wrappers

  datatype Device = Device(arn: string)

  /** A group and its member devices, in the order the store returns them. */
  datatype Group = Group(arn: string, members: seq<Device>)

  datatype Directory = Directory(devices: seq<Device>, groups: seq<Group>)

  /** What `send_message` builds before it synthesizes anything. */
  datatype Resolved = Resolved(devices: seq<Device>, isGroup: bool)

  function DeviceArn(d: Device): string { d.arn }
  function GroupArn(g: Group): string { g.arn }

  /** `i` is the position of the first record whose identifier is `arn`. */
  predicate IsFirstMatch<T>(s: seq<T>, arnOf: T -> string, arn: string, i: int)
  {
    0 <= i < |s| && arnOf(s[i]) == arn &&
    forall j :: 0 <= j < i ==> arnOf(s[j]) != arn
  }

  predicate HasMatch<T>(s: seq<T>, arnOf: T -> string, arn: string)
  {
    exists i :: 0 <= i < |s| && arnOf(s[i]) == arn
  }

  /** `query(...).filter_by(arn=arn).first()`: the index of the first exact match, if any. */
  function FirstMatch<T>(s: seq<T>, arnOf: T -> string, arn: string): (r: Option<nat>)
    ensures r.Some? ==> IsFirstMatch(s, arnOf, arn, r.value)
    ensures r.None? <==> !HasMatch(s, arnOf, arn)
  {
    if s == [] then None
    else if arnOf(s[0]) == arn then Some(0)
    else
      match FirstMatch(s[1..], arnOf, arn)
      case None =>
        assert forall j :: 1 <= j < |s| ==> s[j] == s[1..][j - 1];
        None
      case Some(k) =>
        assert forall j :: 1 <= j < k + 1 ==> s[j] == s[1..][j - 1];
        Some(k + 1)
  }

  /** The first match is unique: any position satisfying `IsFirstMatch` is the one `FirstMatch` finds. */
  lemma FirstMatchUnique<T>(s: seq<T>, arnOf: T -> string, arn: string, i: int)
    requires IsFirstMatch(s, arnOf, arn, i)
    ensures FirstMatch(s, arnOf, arn) == Some(i)
  {
  }

  /** lambda_function.py lines 68-82: device first; only if no device matches, the group's members. */
  function Resolve(dir: Directory, arn: string): Resolved
  {
    match FirstMatch(dir.devices, DeviceArn, arn)
    case Some(i) => Resolved([dir.devices[i]], false)
    case None =>
      match FirstMatch(dir.groups, GroupArn, arn)
      case Some(k) => Resolved(dir.groups[k].members, true)
      case None => Resolved([], false)
  }

  /** A device with exactly that identifier wins: the result is that one device, not a group. */
  lemma ResolveDevice(dir: Directory, arn: string, i: int)
    requires IsFirstMatch(dir.devices, DeviceArn, arn, i)
    ensures Resolve(dir, arn) == Resolved([dir.devices[i]], false)
  {
  }

  /** When a device matches, the group table is never consulted: any group table gives the same result. */
  lemma ResolveIgnoresGroups(devices: seq<Device>, groups1: seq<Group>, groups2: seq<Group>, arn: string)
    requires HasMatch(devices, DeviceArn, arn)
    ensures Resolve(Directory(devices, groups1), arn) == Resolve(Directory(devices, groups2), arn)
  {
  }

  /** No device but a group matches: the group's full member list, in order, with `is_group` set. */
  lemma ResolveGroup(dir: Directory, arn: string, k: int)
    requires !HasMatch(dir.devices, DeviceArn, arn)
    requires IsFirstMatch(dir.groups, GroupArn, arn, k)
    ensures Resolve(dir, arn) == Resolved(dir.groups[k].members, true)
  {
  }

  /** Neither matches: no error, no devices, not a group. */
  lemma ResolveUnknown(dir: Directory, arn: string)
    requires !HasMatch(dir.devices, DeviceArn, arn)
    requires !HasMatch(dir.groups, GroupArn, arn)
    ensures Resolve(dir, arn) == Resolved([], false)
  {
  }

  /** `is_group` is set exactly when no device but some group carries the identifier. */
  lemma ResolveIsGroupIff(dir: Directory, arn: string)
    ensures Resolve(dir, arn).isGroup <==>
              !HasMatch(dir.devices, DeviceArn, arn) && HasMatch(dir.groups, GroupArn, arn)
  {
  }

  /** A device-target resolution always yields exactly one device, whose identifier is the target. */
  lemma ResolveNotGroup(dir: Directory, arn: string)
    requires !Resolve(dir, arn).isGroup
    ensures |Resolve(dir, arn).devices| <= 1
    ensures |Resolve(dir, arn).devices| == 1 <==> HasMatch(dir.devices, DeviceArn, arn)
    ensures forall d :: d in Resolve(dir, arn).devices ==> d.arn == arn
  {
  }
}
