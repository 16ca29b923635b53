/** The admin list endpoints: add to, remove from and read the BLACKLIST or
    WHITELIST. The list store itself (`list_add`, `list_remove`, `list_get`) is
    not part of this model; a handler's effect is the store call it makes. */
module AdminList {
  import opened Wrappers

  /** The two address lists. */
  datatype ListKind = Blacklist | Whitelist

  /** The 400 raised for any other kind. */
  datatype KindError = InvalidKind(kind: string)

  /** The list-store call a handler makes once the kind is accepted. */
  datatype ListOp =
    | Add(kind: ListKind, address: string)
    | Remove(kind: ListKind, address: string)
    | Get(kind: ListKind)

  /** The kind's name on the wire. */
  function KindName(k: ListKind): string {
    match k
    case Blacklist => "BLACKLIST"
    case Whitelist => "WHITELIST"
  }

  /** The guard the three handlers share: accept exactly the two list names,
      case-sensitively, and nothing else. */
  function ParseKind(kind: string): (r: Result<ListKind, KindError>)
    ensures r.Success? <==> kind == "BLACKLIST" || kind == "WHITELIST"
    ensures r.Success? ==> KindName(r.value) == kind
    ensures r.Failure? ==> r.error == InvalidKind(kind)
  {
    if kind == "BLACKLIST" then Success(Blacklist)
    else if kind == "WHITELIST" then Success(Whitelist)
    else Failure(InvalidKind(kind))
  }

  /** Every list kind's name passes the guard and names that kind again. */
  lemma ParseKindName(k: ListKind)
    ensures ParseKind(KindName(k)) == Success(k)
  {
  }

  /** `admin_list_add`: reject a bad kind before touching the store, else add. */
  function ListAddHandler(kind: string, address: string): (r: Result<ListOp, KindError>)
    ensures r.Failure? <==> ParseKind(kind).Failure?
    ensures r.Success? ==> r.value.Add? && KindName(r.value.kind) == kind && r.value.address == address
  {
    match ParseKind(kind)
    case Failure(e) => Failure(e)
    case Success(k) => Success(Add(k, address))
  }

  /** `admin_list_remove`: reject a bad kind before touching the store, else remove. */
  function ListRemoveHandler(kind: string, address: string): (r: Result<ListOp, KindError>)
    ensures r.Failure? <==> ParseKind(kind).Failure?
    ensures r.Success? ==> r.value.Remove? && KindName(r.value.kind) == kind && r.value.address == address
  {
    match ParseKind(kind)
    case Failure(e) => Failure(e)
    case Success(k) => Success(Remove(k, address))
  }

  /** `admin_list`: reject a bad kind before touching the store, else read the list. */
  function ListGetHandler(kind: string): (r: Result<ListOp, KindError>)
    ensures r.Failure? <==> ParseKind(kind).Failure?
    ensures r.Success? ==> r.value.Get? && KindName(r.value.kind) == kind
  {
    match ParseKind(kind)
    case Failure(e) => Failure(e)
    case Success(k) => Success(Get(k))
  }

  /** The three handlers accept and reject exactly the same kinds, and a rejected
      kind yields the same error from each. */
  lemma HandlersShareGuard(kind: string, address: string)
    ensures ListAddHandler(kind, address).Failure? <==> ListGetHandler(kind).Failure?
    ensures ListRemoveHandler(kind, address).Failure? <==> ListGetHandler(kind).Failure?
    ensures ListGetHandler(kind).Failure? ==>
      && ListAddHandler(kind, address) == Failure(InvalidKind(kind))
      && ListRemoveHandler(kind, address) == Failure(InvalidKind(kind))
      && ListGetHandler(kind) == Failure(InvalidKind(kind))
  {
  }
}
