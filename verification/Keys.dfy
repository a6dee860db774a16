/** The key table and the `newkey` endpoint. */
module Keys {
  import opened Base
  import opened Permissions

  type Key = k: nat | k < 0x1_0000_0000_0000_0000

  const STATUS_OK := 200
  const STATUS_NO_CONTENT := 204
  const STATUS_BAD_REQUEST := 400
  const STATUS_UNAUTHORIZED := 401
  const STATUS_FORBIDDEN := 403
  const STATUS_METHOD_NOT_ALLOWED := 405

  /** rand.Int draws below this bound. */
  const DRAW_LIMIT: Key := 0x7fff_ffff_ffff_ffff
  const MAX_DRAWS := 1000

  /** The 'key' query parameter. */
  datatype KeyParam = Missing | Malformed | Given(key: Key)

  function OrAll(perms: seq<Perms>): Perms {
    if perms == [] then 0 else OrAll(perms[..|perms| - 1]) | perms[|perms| - 1]
  }

  /** The permissions of a key made from a list contain every member of the list. */
  lemma {:induction false} MemberWithin(perms: seq<Perms>, i: nat)
    requires i < |perms|
    ensures Within(perms[i], OrAll(perms))
  {
    var n := |perms| - 1;
    if i < n {
      MemberWithin(perms[..n], i);
      OrLeft(OrAll(perms[..n]), perms[n], perms[i]);
    } else {
      OrRight(OrAll(perms[..n]), perms[n]);
    }
  }

  /** ... and nothing that is in no member. */
  lemma {:induction false} OrAllIsLeast(perms: seq<Perms>, bound: Perms)
    requires forall p | p in perms :: Within(p, bound)
    ensures Within(OrAll(perms), bound)
  {
    if perms != [] {
      var n := |perms| - 1;
      OrAllIsLeast(perms[..n], bound);
      assert perms[n] in perms;
      OrLeast(OrAll(perms[..n]), perms[n], bound);
    }
  }

  lemma OrLeft(a: Perms, b: Perms, p: Perms)
    requires Within(p, a)
    ensures Within(p, a | b)
  {
  }

  lemma OrRight(a: Perms, b: Perms)
    ensures Within(b, a | b)
  {
  }

  lemma OrLeast(a: Perms, b: Perms, bound: Perms)
    requires Within(a, bound) && Within(b, bound)
    ensures Within(a | b, bound)
  {
  }

  /** The first `n` draws are all keys already. */
  ghost predicate AllTaken(draws: nat -> Option<Key>, n: nat, keys: map<Key, Perms>) {
    forall i | 0 <= i < n :: draws(i).Some? && draws(i).value in keys
  }

  class AuthLookup {
    var keys: map<Key, Perms>

    constructor ()
      ensures keys == map[]
    {
      keys := map[];
    }

    method AddKeyInt(key: Key, perms: Perms) returns (ok: bool)
      modifies this
      ensures ok <==> key !in old(keys)
      ensures keys == if ok then old(keys)[key := perms] else old(keys)
    {
      if key in keys {
        return false;
      }
      keys := keys[key := perms];
      ok := true;
    }

    method AddKey(key: Key, perms: seq<Perms>) returns (ok: bool)
      modifies this
      ensures ok <==> key !in old(keys)
      ensures keys == if ok then old(keys)[key := OrAll(perms)] else old(keys)
    {
      if key in keys {
        return false;
      }
      var pVal: Perms := 0;
      for i := 0 to |perms|
        invariant pVal == OrAll(perms[..i])
      {
        assert perms[..i + 1][..i] == perms[..i];
        pVal := pVal | perms[i];
      }
      assert perms[..|perms|] == perms;
      ok := AddKeyInt(key, pVal);
    }

    /** `draws(i)` is the i-th random number, None when the generator fails. The
        result None stands for the panic. */
    method NewKeyInt(perms: Perms, draws: nat -> Option<Key>) returns (key: Option<Key>)
      requires forall i :: draws(i).Some? ==> draws(i).value < DRAW_LIMIT
      modifies this
      ensures key.Some? ==>
                && key.value !in old(keys) && key.value < DRAW_LIMIT
                && keys == old(keys)[key.value := perms]
                && exists n: nat :: n < MAX_DRAWS && draws(n) == key && AllTaken(draws, n, old(keys))
      ensures key.None? ==>
                && keys == old(keys)
                && (AllTaken(draws, MAX_DRAWS, old(keys)) ||
                    exists n: nat :: n < MAX_DRAWS && draws(n).None? && AllTaken(draws, n, old(keys)))
    {
      for i := 0 to MAX_DRAWS
        invariant keys == old(keys)
        invariant AllTaken(draws, i, old(keys))
      {
        var v := draws(i);
        assert draws(i) == v && AllTaken(draws, i, old(keys));
        if v.None? {
          return None;
        }
        var ok := AddKeyInt(v.value, perms);
        if ok {
          return v;
        }
      }
      key := None;
    }

    /** getAuthValues: the key and its permissions, or the status written. */
    method GetAuthValues(param: KeyParam) returns (key: Key, value: Perms, status: int)
      ensures status == STATUS_OK <==> param.Given? && param.key in keys
      ensures status == STATUS_OK ==> key == param.key && value == keys[key]
      ensures status != STATUS_OK ==> key == 0 && value == 0
      ensures param.Malformed? ==> status == STATUS_BAD_REQUEST
      ensures param.Missing? || (param.Given? && param.key !in keys) ==> status == STATUS_UNAUTHORIZED
    {
      match param
      case Missing => return 0, 0, STATUS_UNAUTHORIZED;
      case Malformed => return 0, 0, STATUS_BAD_REQUEST;
      case Given(k) =>
        if k in keys {
          return k, keys[k], STATUS_OK;
        }
        return 0, 0, STATUS_UNAUTHORIZED;
    }

    /** The request form of checkPermission. */
    method CheckRequest(param: KeyParam, requires_: seq<Perms>) returns (status: int)
      ensures status == STATUS_OK <==>
                && param.Given? && param.key in keys
                && forall i | 0 <= i < |requires_| :: CheckPermission(keys[param.key], requires_[i])
      ensures status == STATUS_UNAUTHORIZED <==> !(param.Given? && param.key in keys)
      ensures status != STATUS_OK && status != STATUS_UNAUTHORIZED ==> status == STATUS_FORBIDDEN
    {
      if !param.Given? || param.key !in keys {
        return STATUS_UNAUTHORIZED;
      }
      var value := keys[param.key];
      for i := 0 to |requires_|
        invariant forall j | 0 <= j < i :: CheckPermission(value, requires_[j])
      {
        if !CheckPermission(value, requires_[i]) {
          return STATUS_FORBIDDEN;
        }
      }
      status := STATUS_OK;
    }

    /** epGetKey after its gate, with no other request in between. `perms` is the
        parsed query parameter, None if it is missing or malformed. The result
        None stands for the panic of newKeyInt. */
    method EpGetKey(param: KeyParam, perms: Option<Perms>, draws: nat -> Option<Key>)
      returns (status: Option<int>, minted: Option<Key>)
      requires forall i :: draws(i).Some? ==> draws(i).value < DRAW_LIMIT
      modifies this
      ensures minted.Some? <==> status == Some(STATUS_OK)
      ensures minted.None? ==> keys == old(keys)
      ensures minted.Some? ==>
                && param.Given? && param.key in old(keys) && perms.Some?
                && minted.value !in old(keys)
                && CreateNewPerms(old(keys)[param.key], perms.value).Created?
                && keys == old(keys)[minted.value := CreateNewPerms(old(keys)[param.key], perms.value).value]
                && keys[minted.value] != 0
      ensures perms.None? ==> status == Some(STATUS_BAD_REQUEST)
      ensures perms.Some? && param.Malformed? ==> status == Some(STATUS_BAD_REQUEST)
      ensures perms.Some? && (param.Missing? || (param.Given? && param.key !in old(keys))) ==>
                status == Some(STATUS_UNAUTHORIZED)
      ensures perms.Some? && param.Given? && param.key in old(keys) ==>
                && status != Some(STATUS_UNAUTHORIZED)
                && (status == Some(STATUS_FORBIDDEN) <==> CreateNewPerms(old(keys)[param.key], perms.value).Refused?)
                && (CreateNewPerms(old(keys)[param.key], perms.value).Created? ==>
                      if CreateNewPerms(old(keys)[param.key], perms.value).value == 0
                      then status == Some(STATUS_BAD_REQUEST)
                      else minted.Some? || status.None?)
    {
      if perms.None? {
        return Some(STATUS_BAD_REQUEST), None;
      }
      var key, ourPerms, found := GetAuthValues(param);
      if found != STATUS_OK {
        return Some(found), None;
      }
      var made := CreateNewPerms(ourPerms, perms.value);
      if made.Refused? {
        return Some(STATUS_FORBIDDEN), None;
      }
      if made.value == 0 {
        return Some(STATUS_BAD_REQUEST), None;
      }
      assert made.value != 0;
      minted := NewKeyInt(made.value, draws);
      assert minted.Some? ==> keys[minted.value] == made.value;
      status := if minted.Some? then Some(STATUS_OK) else None;
    }
  }

  class WebApi {
    const auth: AuthLookup?

    constructor (auth: AuthLookup?)
      ensures this.auth == auth
    {
      this.auth := auth;
    }

    /** The `newkey` endpoint: GET only, behind the MakeKeys gate when there is
        authentication. */
    method NewKeyEndpoint(isGet: bool, param: KeyParam, perms: Option<Perms>, draws: nat -> Option<Key>)
      returns (status: Option<int>, minted: Option<Key>)
      requires forall i :: draws(i).Some? ==> draws(i).value < DRAW_LIMIT
      modifies if auth == null then {} else {auth}
      ensures !isGet ==> status == Some(STATUS_METHOD_NOT_ALLOWED)
      ensures isGet && auth == null ==> status == Some(STATUS_NO_CONTENT)
      ensures minted.Some? ==> status == Some(STATUS_OK) && isGet && auth != null
      ensures auth != null && minted.None? ==> auth.keys == old(auth.keys)
      ensures minted.Some? ==>
                && param.Given? && param.key in old(auth.keys) && perms.Some? && minted.value !in old(auth.keys)
                && Grantable(old(auth.keys)[param.key], perms.value)
                && auth.keys == old(auth.keys)[minted.value := Granted(perms.value)]
      // short of a panic, a request that deserves a key gets one
      ensures isGet && auth != null && perms.Some? && param.Given? && param.key in old(auth.keys)
              && Grantable(old(auth.keys)[param.key], perms.value)
              ==> minted.Some? || status.None?
      // the second lookup of a request that passed the gate never fails
      ensures isGet && auth != null && status == Some(STATUS_UNAUTHORIZED) ==>
                !(param.Given? && param.key in old(auth.keys))
    {
      if !isGet {
        return Some(STATUS_METHOD_NOT_ALLOWED), None;
      }
      if auth != null {
        var gate := auth.CheckRequest(param, [CAN_MAKE_KEYS]);
        if gate != STATUS_OK {
          return Some(gate), None;
        }
        assert [CAN_MAKE_KEYS][0] == CAN_MAKE_KEYS;
      }
      if auth == null {
        return Some(STATUS_NO_CONTENT), None;
      }
      if perms.Some? {
        GrantableExact(auth.keys[param.key], perms.value);
      }
      status, minted := auth.EpGetKey(param, perms, draws);
    }
  }
}
