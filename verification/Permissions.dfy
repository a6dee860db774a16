/** The permission bits of API keys and what a key may put on a new key. */
module Permissions {
  import opened Base

  type Perms = bv64

  const CAN_CHECK_STATUS: Perms := 0x01
  const CAN_CLOSE: Perms := 0x02
  const CAN_USE_WEBSOCKET: Perms := 0x04
  const CAN_FILTER: Perms := 0x08
  const CAN_INJECT: Perms := 0x10
  const CAN_MAKE_KEYS: Perms := 0x20
  const CAN_DUPLICATE_KEYS: Perms := 0x40

  /** The seven bits that mean something. */
  const KNOWN: Perms := 0x7f

  predicate CheckPermission(val: Perms, code: Perms) { val & code != 0 }

  /** Every bit of `a` is a bit of `b`. */
  predicate Within(a: Perms, b: Perms) { a & !b == 0 }

  datatype Creation = Created(value: Perms) | Refused(missing: string)

  /** None stands for the (0, false) return. */
  function IsValidCreationPerm(current: Perms, user: Perms, desired: Perms, perm: Perms): Option<Perms> {
    if !CheckPermission(desired, perm) then Some(current)
    else if !CheckPermission(user, perm) then None
    else Some(current | perm)
  }

  function CreateNewPerms(user: Perms, desired: Perms): Creation {
    var v0 := IsValidCreationPerm(0, user, desired, CAN_CHECK_STATUS);
    if v0.None? then Refused("CanCheckStatus") else
    var v1 := IsValidCreationPerm(v0.value, user, desired, CAN_CLOSE);
    if v1.None? then Refused("CanClose") else
    var v2 := IsValidCreationPerm(v1.value, user, desired, CAN_USE_WEBSOCKET);
    if v2.None? then Refused("CanUseWebsocket") else
    var v3 := IsValidCreationPerm(v2.value, user, desired, CAN_FILTER);
    if v3.None? then Refused("CanFilter") else
    var v4 := IsValidCreationPerm(v3.value, user, desired, CAN_INJECT);
    if v4.None? then Refused("CanInject") else
    if CheckPermission(desired, CAN_MAKE_KEYS) && !CheckPermission(user, CAN_DUPLICATE_KEYS)
    then Refused("CanMakeKeys") else
    var v5 := if CheckPermission(desired, CAN_MAKE_KEYS) then v4.value | CAN_MAKE_KEYS else v4.value;
    var v6 := IsValidCreationPerm(v5, user, desired, CAN_DUPLICATE_KEYS);
    if v6.None? then Refused("CanInject") else
    Created(v6.value)
  }

  /** Exactly the requests whose known bits, MakeKeys aside, the user holds, and that
      name MakeKeys only to a holder of DuplicateKeys, are granted: as asked for,
      without the reserved bits. */
  lemma CreationExact(user: Perms, desired: Perms)
    ensures CreateNewPerms(user, desired).Created? <==>
              && Within(desired & KNOWN & !CAN_MAKE_KEYS, user)
              && (CheckPermission(desired, CAN_MAKE_KEYS) ==> CheckPermission(user, CAN_DUPLICATE_KEYS))
    ensures CreateNewPerms(user, desired).Created? ==>
              CreateNewPerms(user, desired).value == desired & KNOWN
  {
  }

  predicate Lacks(user: Perms, desired: Perms, perm: Perms) {
    CheckPermission(desired, perm) && !CheckPermission(user, perm)
  }

  /** The name in a refusal is that of the first missing permission, except that a
      missing DuplicateKeys goes by the name of CanInject. */
  lemma RefusedNames(user: Perms, desired: Perms)
    ensures CreateNewPerms(user, desired) == Refused("CanCheckStatus") <==> Lacks(user, desired, CAN_CHECK_STATUS)
    ensures CreateNewPerms(user, desired) == Refused("CanClose") <==>
              !Lacks(user, desired, CAN_CHECK_STATUS) && Lacks(user, desired, CAN_CLOSE)
    ensures CreateNewPerms(user, desired) == Refused("CanUseWebsocket") <==>
              && !Lacks(user, desired, CAN_CHECK_STATUS) && !Lacks(user, desired, CAN_CLOSE)
              && Lacks(user, desired, CAN_USE_WEBSOCKET)
    ensures CreateNewPerms(user, desired) == Refused("CanFilter") <==>
              && !Lacks(user, desired, CAN_CHECK_STATUS) && !Lacks(user, desired, CAN_CLOSE)
              && !Lacks(user, desired, CAN_USE_WEBSOCKET) && Lacks(user, desired, CAN_FILTER)
    ensures CreateNewPerms(user, desired) == Refused("CanMakeKeys") <==>
              && !Lacks(user, desired, CAN_CHECK_STATUS) && !Lacks(user, desired, CAN_CLOSE)
              && !Lacks(user, desired, CAN_USE_WEBSOCKET) && !Lacks(user, desired, CAN_FILTER)
              && !Lacks(user, desired, CAN_INJECT)
              && CheckPermission(desired, CAN_MAKE_KEYS) && !CheckPermission(user, CAN_DUPLICATE_KEYS)
  {
  }

  /** What a key with MakeKeys gives away never exceeds what it holds, and without
      DuplicateKeys the new key cannot mint. */
  lemma CreationDelegates(user: Perms, desired: Perms)
    requires CheckPermission(user, CAN_MAKE_KEYS)
    requires CreateNewPerms(user, desired).Created?
    ensures Within(CreateNewPerms(user, desired).value, user)
    ensures Within(CreateNewPerms(user, desired).value, KNOWN)
    ensures !CheckPermission(user, CAN_DUPLICATE_KEYS) ==>
              !CheckPermission(CreateNewPerms(user, desired).value, CAN_MAKE_KEYS)
  {
    CreationExact(user, desired);
  }

  /** Whether a grant stays within the granter depends on the MakeKeys gate alone:
      a holder of DuplicateKeys that could not mint would put MakeKeys on a new key. */
  lemma GrantWithinIff(user: Perms, desired: Perms)
    requires CreateNewPerms(user, desired).Created?
    ensures Within(CreateNewPerms(user, desired).value, user) <==>
            (CheckPermission(desired, CAN_MAKE_KEYS) ==> CheckPermission(user, CAN_MAKE_KEYS))
    ensures CreateNewPerms(CAN_DUPLICATE_KEYS, CAN_MAKE_KEYS) == Created(CAN_MAKE_KEYS)
  {
    CreationExact(user, desired);
  }

  function Granted(desired: Perms): Perms { desired & KNOWN }

  /** What a key must hold for `desired` to be put on a new key. */
  predicate Grantable(user: Perms, desired: Perms) {
    && CheckPermission(user, CAN_MAKE_KEYS)
    && Granted(desired) != 0
    && Within(Granted(desired), user)
    && (CheckPermission(desired, CAN_MAKE_KEYS) ==> CheckPermission(user, CAN_DUPLICATE_KEYS))
  }

  lemma GrantableExact(user: Perms, desired: Perms)
    ensures Grantable(user, desired) <==>
              && CheckPermission(user, CAN_MAKE_KEYS)
              && CreateNewPerms(user, desired).Created? && CreateNewPerms(user, desired).value != 0
    ensures Grantable(user, desired) ==> CreateNewPerms(user, desired).value == Granted(desired)
  {
    CreationExact(user, desired);
  }

  lemma WithinTransitive(a: Perms, b: Perms, c: Perms)
    requires Within(a, b) && Within(b, c)
    ensures Within(a, c)
  {
  }
}
