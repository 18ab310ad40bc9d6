/**
 * The store table of the marketplace as a value. `std::map<int, Loja>` with keys
 * 1..n (ids are `size() + 1` and nothing is ever removed) iterates in ascending key
 * order, so it is a sequence here: the store with key k sits at position k - 1.
 * This module holds the table's invariants, the functions that specify what each
 * operation of the marketplace computes on it, and the lemmas about them.
 */
module Catalog {
  import opened Entities
  import opened Text

  // ---------------------------------------------------------------------------
  // Invariants of the store table

  /** The store at position i carries the id i + 1, which is also its key. */
  ghost predicate IdsAreKeys(ls: seq<Loja>)
  {
    forall i :: 0 <= i < |ls| ==> ls[i].id == i + 1
  }

  /** Every store owner is a copy of a registered user. */
  ghost predicate OwnersRegistered(ls: seq<Loja>, usuarios: map<string, Usuario>)
  {
    forall i :: 0 <= i < |ls| ==>
      ls[i].proprietario.email in usuarios && usuarios[ls[i].proprietario.email] == ls[i].proprietario
  }

  /** Product ids are below the counter `next` and no two products in the catalog share one. */
  ghost predicate ProductIdsFresh(ls: seq<Loja>, next: int)
  {
    && (forall i, j :: 0 <= i < |ls| && 0 <= j < |ls[i].produtos| ==> 0 <= ls[i].produtos[j].id < next)
    && (forall i, j, k, l ::
          0 <= i < |ls| && 0 <= j < |ls[i].produtos| && 0 <= k < |ls| && 0 <= l < |ls[k].produtos| &&
          ls[i].produtos[j].id == ls[k].produtos[l].id
          ==> i == k && j == l)
  }

  /** The product `q` is `p` with possibly another stock. */
  ghost predicate SameProduct(p: Produto, q: Produto)
  {
    p.id == q.id && p.nome == q.nome && p.preco == q.preco
  }

  /** `b` differs from `a` at most in the stock of its products. */
  ghost predicate SameShape(a: seq<Loja>, b: seq<Loja>)
  {
    && |a| == |b|
    && (forall i :: 0 <= i < |a| ==>
          a[i].id == b[i].id && a[i].nome == b[i].nome && a[i].proprietario == b[i].proprietario &&
          |a[i].produtos| == |b[i].produtos|)
    && (forall i, j :: 0 <= i < |a| && 0 <= j < |a[i].produtos| && j < |b[i].produtos| ==>
          SameProduct(a[i].produtos[j], b[i].produtos[j]))
  }

  /** Changing only stock keeps every invariant of the table. */
  lemma SameShapeKeepsInvariants(a: seq<Loja>, b: seq<Loja>, usuarios: map<string, Usuario>, next: int)
    requires SameShape(a, b)
    ensures IdsAreKeys(a) ==> IdsAreKeys(b)
    ensures OwnersRegistered(a, usuarios) ==> OwnersRegistered(b, usuarios)
    ensures ProductIdsFresh(a, next) ==> ProductIdsFresh(b, next)
  {
    if ProductIdsFresh(a, next) {
      forall i, j, k, l |
        0 <= i < |b| && 0 <= j < |b[i].produtos| && 0 <= k < |b| && 0 <= l < |b[k].produtos| &&
        b[i].produtos[j].id == b[k].produtos[l].id
        ensures i == k && j == l
      {
        assert SameProduct(a[i].produtos[j], b[i].produtos[j]);
        assert SameProduct(a[k].produtos[l], b[k].produtos[l]);
      }
      forall i, j | 0 <= i < |b| && 0 <= j < |b[i].produtos|
        ensures 0 <= b[i].produtos[j].id < next
      {
        assert SameProduct(a[i].produtos[j], b[i].produtos[j]);
      }
    }
  }

  /** Registering a user under a new email keeps every owner registered. */
  lemma NewUserKeepsOwners(ls: seq<Loja>, usuarios: map<string, Usuario>, u: Usuario)
    requires OwnersRegistered(ls, usuarios) && u.email !in usuarios
    ensures OwnersRegistered(ls, usuarios[u.email := u])
  {
    forall i | 0 <= i < |ls|
      ensures ls[i].proprietario.email in usuarios[u.email := u]
      ensures usuarios[u.email := u][ls[i].proprietario.email] == ls[i].proprietario
    {
      assert ls[i].proprietario.email in usuarios;
    }
  }

  // ---------------------------------------------------------------------------
  // criar_loja: a new store with the next key

  /** A new store without products, keyed one past the last, owned by a registered user, keeps the invariants. */
  lemma NewStoreKeepsInvariants(ls: seq<Loja>, l: Loja, usuarios: map<string, Usuario>, next: int)
    requires IdsAreKeys(ls) && OwnersRegistered(ls, usuarios) && ProductIdsFresh(ls, next)
    requires l.id == |ls| + 1 && l.produtos == []
    requires l.proprietario.email in usuarios && usuarios[l.proprietario.email] == l.proprietario
    ensures IdsAreKeys(ls + [l]) && OwnersRegistered(ls + [l], usuarios) && ProductIdsFresh(ls + [l], next)
  {
    var r := ls + [l];
    forall i | 0 <= i < |r|
      ensures r[i].id == i + 1
      ensures r[i].proprietario.email in usuarios && usuarios[r[i].proprietario.email] == r[i].proprietario
      ensures r[i].produtos == if i < |ls| then ls[i].produtos else []
    {
      if i < |ls| { assert r[i] == ls[i]; }
    }
  }

  // ---------------------------------------------------------------------------
  // adicionar_produto: a new product at the end of one store's list

  /** `ls` with `p` appended to the products of the store at position `k`. */
  function WithProduct(ls: seq<Loja>, k: nat, p: Produto): (r: seq<Loja>)
    requires k < |ls|
    ensures |r| == |ls| && r[k].produtos == ls[k].produtos + [p]
    ensures r[k].id == ls[k].id && r[k].nome == ls[k].nome && r[k].proprietario == ls[k].proprietario
    ensures forall i :: 0 <= i < |ls| && i != k ==> r[i] == ls[i]
  {
    ls[k := ls[k].(produtos := ls[k].produtos + [p])]
  }

  /** Adding a product leaves the keys and owners of the stores as they were. */
  lemma WithProductKeepsStores(ls: seq<Loja>, k: nat, p: Produto, usuarios: map<string, Usuario>)
    requires k < |ls| && IdsAreKeys(ls) && OwnersRegistered(ls, usuarios)
    ensures IdsAreKeys(WithProduct(ls, k, p)) && OwnersRegistered(WithProduct(ls, k, p), usuarios)
  {
    var r := WithProduct(ls, k, p);
    forall i | 0 <= i < |r|
      ensures r[i].id == ls[i].id && r[i].proprietario == ls[i].proprietario
    {
      if i != k { assert r[i] == ls[i]; }
    }
  }

  /**
   * A product whose id is the counter, appended anywhere, keeps the ids distinct
   * and below the counter once the counter has moved past it.
   */
  lemma {:induction false} NewProductKeepsIdsFresh(ls: seq<Loja>, k: nat, p: Produto, next: int)
    requires k < |ls| && ProductIdsFresh(ls, next) && 0 <= next && p.id == next
    ensures ProductIdsFresh(WithProduct(ls, k, p), next + 1)
  {
    var r := WithProduct(ls, k, p);
    forall i, j | 0 <= i < |r| && 0 <= j < |r[i].produtos|
      ensures 0 <= r[i].produtos[j].id < next + 1
    {
      if i != k {
        assert r[i].produtos[j] == ls[i].produtos[j];
      } else if j < |ls[k].produtos| {
        assert r[i].produtos[j] == ls[i].produtos[j];
      } else {
        assert r[i].produtos[j] == p;
      }
    }
    forall i, j, i', j' |
      0 <= i < |r| && 0 <= j < |r[i].produtos| && 0 <= i' < |r| && 0 <= j' < |r[i'].produtos| &&
      r[i].produtos[j].id == r[i'].produtos[j'].id
      ensures i == i' && j == j'
    {
      var isNew := i == k && j == |ls[k].produtos|;
      var isNew' := i' == k && j' == |ls[k].produtos|;
      if !isNew && !isNew' {
        assert r[i].produtos[j] == ls[i].produtos[j];
        assert r[i'].produtos[j'] == ls[i'].produtos[j'];
      }
    }
  }

  // ---------------------------------------------------------------------------
  // adicionar_estoque: the stock of the first product with an id, in one store

  /** Position of the first product with id `pid`, or -1 when there is none. */
  function IndexOfProduct(ps: seq<Produto>, pid: int): (r: int)
    ensures -1 <= r < |ps|
    ensures r >= 0 ==> ps[r].id == pid && forall j :: 0 <= j < r ==> ps[j].id != pid
    ensures r == -1 <==> forall j :: 0 <= j < |ps| ==> ps[j].id != pid
  {
    if ps == [] then -1
    else if ps[0].id == pid then 0
    else
      var k := IndexOfProduct(ps[1..], pid);
      if k == -1 then -1 else k + 1
  }

  /**
   * The position (store, product) whose stock adicionar_estoque changes: the
   * first product with id `pid` in the store with key `lojaId`, if any.
   */
  function StockSlot(ls: seq<Loja>, lojaId: int, pid: int): (r: Option<(nat, nat)>)
    ensures r.Some? ==>
      && r.value.0 == lojaId - 1 && r.value.0 < |ls|
      && r.value.1 < |ls[r.value.0].produtos|
      && ls[r.value.0].produtos[r.value.1].id == pid
      && forall j :: 0 <= j < r.value.1 ==> ls[r.value.0].produtos[j].id != pid
    ensures r.None? <==> !(1 <= lojaId <= |ls|) || IndexOfProduct(ls[lojaId - 1].produtos, pid) == -1
  {
    if 1 <= lojaId <= |ls| && IndexOfProduct(ls[lojaId - 1].produtos, pid) >= 0
    then Some((lojaId - 1, IndexOfProduct(ls[lojaId - 1].produtos, pid)))
    else None
  }

  /** `ls` with `d` added to the stock of product `j` of store `k`. */
  function AddStock(ls: seq<Loja>, k: nat, j: nat, d: int): (r: seq<Loja>)
    requires k < |ls| && j < |ls[k].produtos|
    ensures SameShape(ls, r)
    ensures r[k].produtos[j].quantidade == ls[k].produtos[j].quantidade + d
    ensures forall i :: 0 <= i < |ls| && i != k ==> r[i] == ls[i]
    ensures forall m :: 0 <= m < |ls[k].produtos| && m != j ==> r[k].produtos[m] == ls[k].produtos[m]
  {
    var p := ls[k].produtos[j];
    ls[k := ls[k].(produtos := ls[k].produtos[j := p.(quantidade := p.quantidade + d)])]
  }

  /** The first product with an id only depends on the ids, not on stock. */
  lemma IndexOfProductIgnoresStock(ps: seq<Produto>, qs: seq<Produto>, pid: int)
    requires |ps| == |qs| && forall j :: 0 <= j < |ps| ==> ps[j].id == qs[j].id
    ensures IndexOfProduct(ps, pid) == IndexOfProduct(qs, pid)
  {
    var a, b := IndexOfProduct(ps, pid), IndexOfProduct(qs, pid);
    if a >= 0 && b >= 0 {
      assert !(a < b) && !(b < a);
    }
  }

  /**
   * Stock additions accumulate: after adding `a` the same product is found again,
   * and adding `b` to it gives the table one addition of `a + b` gives.
   */
  lemma StockAccumulates(ls: seq<Loja>, lojaId: int, pid: int, a: int, b: int)
    requires StockSlot(ls, lojaId, pid).Some?
    ensures var s := StockSlot(ls, lojaId, pid).value;
      && StockSlot(AddStock(ls, s.0, s.1, a), lojaId, pid) == Some(s)
      && AddStock(AddStock(ls, s.0, s.1, a), s.0, s.1, b) == AddStock(ls, s.0, s.1, a + b)
      && AddStock(AddStock(ls, s.0, s.1, a), s.0, s.1, b)[s.0].produtos[s.1].quantidade
         == ls[s.0].produtos[s.1].quantidade + a + b
  {
    var s := StockSlot(ls, lojaId, pid).value;
    var once := AddStock(ls, s.0, s.1, a);
    IndexOfProductIgnoresStock(ls[s.0].produtos, once[s.0].produtos, pid);
    AddStockTwice(ls, s.0, s.1, a, b);
  }

  /** Two additions to one stock are one addition of their sum. */
  lemma AddStockTwice(ls: seq<Loja>, k: nat, j: nat, a: int, b: int)
    requires k < |ls| && j < |ls[k].produtos|
    ensures AddStock(AddStock(ls, k, j, a), k, j, b) == AddStock(ls, k, j, a + b)
  {
    var p := ls[k].produtos[j];
    var once := AddStock(ls, k, j, a);
    var pa := p.(quantidade := p.quantidade + a);
    assert once[k].produtos == ls[k].produtos[j := pa];
    var pab := pa.(quantidade := pa.quantidade + b);
    assert pab == p.(quantidade := p.quantidade + (a + b));
    assert ls[k].produtos[j := pa][j := pab] == ls[k].produtos[j := pab];
  }

  // ---------------------------------------------------------------------------
  // transferir_produto: stock moved by product id, store by store

  /** `p` with `d` added to its stock when its id is `pid`. */
  function Adjusted(p: Produto, pid: int, d: int): Produto
  {
    if p.id == pid then p.(quantidade := p.quantidade + d) else p
  }

  /** Every product of `ps` with id `pid` gets `d` more stock. */
  function AdjustAll(ps: seq<Produto>, pid: int, d: int): (r: seq<Produto>)
    ensures |r| == |ps|
    ensures forall j :: 0 <= j < |ps| ==>
      SameProduct(ps[j], r[j]) && r[j].quantidade == ps[j].quantidade + (if ps[j].id == pid then d else 0)
  {
    seq(|ps|, j requires 0 <= j < |ps| => Adjusted(ps[j], pid, d))
  }

  /** What a transfer does to one store: origin loses one, destination gains one. */
  function TransferredStore(l: Loja, origem: int, destino: int, pid: int): Loja
  {
    if l.id == origem then l.(produtos := AdjustAll(l.produtos, pid, -1))
    else if l.id == destino then l.(produtos := AdjustAll(l.produtos, pid, 1))
    else l
  }

  /** What a transfer does to the table. */
  function Transferred(ls: seq<Loja>, origem: int, destino: int, pid: int): (r: seq<Loja>)
    ensures SameShape(ls, r)
    ensures forall i, j :: 0 <= i < |ls| && 0 <= j < |ls[i].produtos| ==>
      r[i].produtos[j].quantidade == ls[i].produtos[j].quantidade +
        (if ls[i].produtos[j].id != pid then 0 else if ls[i].id == origem then -1 else if ls[i].id == destino then 1 else 0)
  {
    seq(|ls|, i requires 0 <= i < |ls| => TransferredStore(ls[i], origem, destino, pid))
  }

  /** Updating every product with `pid` changes nothing when no product has that id. */
  lemma AdjustAllAbsent(ps: seq<Produto>, pid: int, d: int)
    requires forall j :: 0 <= j < |ps| ==> ps[j].id != pid
    ensures AdjustAll(ps, pid, d) == ps
  {
  }

  /**
   * A transfer only changes stock, and only of products with the given id in the
   * origin and destination stores; every other store and product is untouched.
   */
  lemma TransferOnlyTouchesProduct(ls: seq<Loja>, origem: int, destino: int, pid: int)
    ensures SameShape(ls, Transferred(ls, origem, destino, pid))
    ensures forall i :: 0 <= i < |ls| && ls[i].id != origem && ls[i].id != destino ==>
      Transferred(ls, origem, destino, pid)[i] == ls[i]
    ensures forall i, j :: 0 <= i < |ls| && 0 <= j < |ls[i].produtos| && ls[i].produtos[j].id != pid ==>
      Transferred(ls, origem, destino, pid)[i].produtos[j] == ls[i].produtos[j]
  {
  }

  /**
   * Because product ids are unique, at most one of the two stores contains the
   * product: a transfer between two different stores never both takes stock from
   * the origin and gives it to the destination: one of the two stores is left
   * as it was.
   */
  lemma {:induction false} TransferNeverMovesStock(ls: seq<Loja>, next: int, origem: int, destino: int, pid: int)
    requires ProductIdsFresh(ls, next) && origem != destino
    ensures var r := Transferred(ls, origem, destino, pid);
      || (forall i :: 0 <= i < |ls| && ls[i].id == origem ==> r[i] == ls[i])
      || (forall i :: 0 <= i < |ls| && ls[i].id == destino ==> r[i] == ls[i])
  {
    var r := Transferred(ls, origem, destino, pid);
    if exists i, j :: 0 <= i < |ls| && 0 <= j < |ls[i].produtos| && ls[i].id == origem && ls[i].produtos[j].id == pid {
      var i, j :| 0 <= i < |ls| && 0 <= j < |ls[i].produtos| && ls[i].id == origem && ls[i].produtos[j].id == pid;
      forall k | 0 <= k < |ls| && ls[k].id == destino
        ensures r[k] == ls[k]
      {
        assert k != i;
        forall l | 0 <= l < |ls[k].produtos|
          ensures ls[k].produtos[l].id != pid
        {
        }
        AdjustAllAbsent(ls[k].produtos, pid, 1);
      }
    } else {
      forall k | 0 <= k < |ls| && ls[k].id == origem
        ensures r[k] == ls[k]
      {
        AdjustAllAbsent(ls[k].produtos, pid, -1);
      }
    }
  }

  // ---------------------------------------------------------------------------
  // comprar_produto: the store and price of the last product with an id

  /** Price of the last product with id `pid` in `ps`. */
  function LastPrice(ps: seq<Produto>, pid: int): (r: Option<Float>)
    ensures r.None? <==> forall j :: 0 <= j < |ps| ==> ps[j].id != pid
    ensures r.Some? ==> exists j :: 0 <= j < |ps| && ps[j].id == pid && ps[j].preco == r.value &&
                                   (forall m :: j < m < |ps| ==> ps[m].id != pid)
  {
    if ps == [] then None
    else if ps[|ps| - 1].id == pid then Some(ps[|ps| - 1].preco)
    else LastPrice(ps[..|ps| - 1], pid)
  }

  /** Key of the last store holding a product with id `pid`, with that product's price. */
  function LastSeller(ls: seq<Loja>, pid: int): (r: Option<(int, Float)>)
    ensures r.None? <==> forall i, j :: 0 <= i < |ls| && 0 <= j < |ls[i].produtos| ==> ls[i].produtos[j].id != pid
    ensures r.Some? ==> 1 <= r.value.0 <= |ls| && LastPrice(ls[r.value.0 - 1].produtos, pid) == Some(r.value.1)
    ensures r.Some? ==> forall i :: r.value.0 <= i < |ls| ==> LastPrice(ls[i].produtos, pid).None?
  {
    if ls == [] then None
    else
      var rest := ls[..|ls| - 1];
      assert ls == rest + [ls[|ls| - 1]];
      match LastPrice(ls[|ls| - 1].produtos, pid)
      case Some(preco) => Some((|ls|, preco))
      case None => LastSeller(rest, pid)
  }

  /** Looking at one more product: a match replaces the price found so far. */
  lemma LastPriceStep(ps: seq<Produto>, j: nat, pid: int)
    requires j < |ps|
    ensures LastPrice(ps[..j + 1], pid) == if ps[j].id == pid then Some(ps[j].preco) else LastPrice(ps[..j], pid)
  {
    assert ps[..j + 1][..j] == ps[..j];
  }

  /** Looking at one more store: a store holding the product replaces the seller found so far. */
  lemma LastSellerStep(ls: seq<Loja>, i: nat, pid: int)
    requires i < |ls|
    ensures LastSeller(ls[..i + 1], pid) ==
      match LastPrice(ls[i].produtos, pid)
      case Some(preco) => Some((i + 1, preco))
      case None => LastSeller(ls[..i], pid)
  {
    assert ls[..i + 1][..i] == ls[..i];
  }

  /** With unique product ids, the last seller is the one store that holds the product. */
  lemma UniqueSeller(ls: seq<Loja>, next: int, pid: int, i: nat, j: nat)
    requires ProductIdsFresh(ls, next)
    requires i < |ls| && j < |ls[i].produtos| && ls[i].produtos[j].id == pid
    ensures LastSeller(ls, pid) == Some((i + 1, ls[i].produtos[j].preco))
  {
    var r := LastSeller(ls, pid);
    assert r.Some? by {
      assert !(0 <= i < |ls| && 0 <= j < |ls[i].produtos| ==> ls[i].produtos[j].id != pid);
    }
    var k := r.value.0 - 1;
    var ps := ls[k].produtos;
    assert LastPrice(ps, pid) == Some(r.value.1);
    var j' :| 0 <= j' < |ps| && ps[j'].id == pid && ps[j'].preco == r.value.1;
    IdsUnique(ls, next, i, j, k, j');
  }

  /** Two positions of the catalog holding the same product id are the same position. */
  lemma IdsUnique(ls: seq<Loja>, next: int, i: nat, j: nat, k: nat, l: nat)
    requires ProductIdsFresh(ls, next)
    requires i < |ls| && j < |ls[i].produtos| && k < |ls| && l < |ls[k].produtos|
    requires ls[i].produtos[j].id == ls[k].produtos[l].id
    ensures i == k && j == l
  {
  }

  // ---------------------------------------------------------------------------
  // buscar_produtos, buscar_lojas: filters by name, in table order

  /** The products of `ps` whose name contains `p`, in list order. */
  ghost function Filtered(ps: seq<Produto>, p: string): (r: seq<Produto>)
    ensures |r| <= |ps|
    ensures forall x :: x in r <==> x in ps && Contains(x.nome, p)
  {
    if ps == [] then []
    else
      var last := ps[|ps| - 1];
      assert ps == ps[..|ps| - 1] + [last];
      Filtered(ps[..|ps| - 1], p) + (if Contains(last.nome, p) then [last] else [])
  }

  /** The products of all stores whose name contains `p`, store by store in key order. */
  ghost function ProductsMatching(ls: seq<Loja>, p: string): (r: seq<Produto>)
    ensures forall x :: x in r <==> exists i :: 0 <= i < |ls| && x in ls[i].produtos && Contains(x.nome, p)
  {
    if ls == [] then []
    else ProductsMatching(ls[..|ls| - 1], p) + Filtered(ls[|ls| - 1].produtos, p)
  }

  /** Filtering one more product extends the filtered prefix by that product if it matches. */
  lemma FilteredStep(ps: seq<Produto>, j: nat, p: string)
    requires j < |ps|
    ensures Filtered(ps[..j + 1], p) == Filtered(ps[..j], p) + (if Contains(ps[j].nome, p) then [ps[j]] else [])
  {
    assert ps[..j + 1][..j] == ps[..j];
  }

  /** Searching one more store appends that store's matching products. */
  lemma ProductsMatchingStep(ls: seq<Loja>, i: nat, p: string)
    requires i < |ls|
    ensures ProductsMatching(ls[..i + 1], p) == ProductsMatching(ls[..i], p) + Filtered(ls[i].produtos, p)
  {
    assert ls[..i + 1][..i] == ls[..i];
  }

  /** The stores whose name contains `p`, in key order. */
  ghost function StoresMatching(ls: seq<Loja>, p: string): (r: seq<Loja>)
    ensures |r| <= |ls|
    ensures forall l :: l in r <==> l in ls && Contains(l.nome, p)
  {
    if ls == [] then []
    else
      var last := ls[|ls| - 1];
      assert ls == ls[..|ls| - 1] + [last];
      StoresMatching(ls[..|ls| - 1], p) + (if Contains(last.nome, p) then [last] else [])
  }

  // ---------------------------------------------------------------------------
  // The loops over one store's products

  /** Appends to `acc` the products of `ps` whose name contains `p` (`find` does not give npos). */
  method AppendMatching(acc: seq<Produto>, ps: seq<Produto>, p: string) returns (r: seq<Produto>)
    ensures r == acc + Filtered(ps, p)
  {
    r := acc;
    var j := 0;
    while j < |ps|
      invariant 0 <= j <= |ps|
      invariant r == acc + Filtered(ps[..j], p)
    {
      var found := if Find(ps[j].nome, p).Some? then [ps[j]] else [];
      FilteredStep(ps, j, p);
      assert acc + Filtered(ps[..j + 1], p) == (acc + Filtered(ps[..j], p)) + found;
      r := r + found;
      j := j + 1;
    }
    assert ps[..j] == ps;
  }

  /**
   * Walks every store in key order and every product in list order, remembering
   * the store key and price of each product with id `pid`: the last one wins.
   */
  method LastSellerSearch(ls: seq<Loja>, pid: int) returns (lojaId: Option<int>, preco: Option<Float>)
    ensures LastSeller(ls, pid).None? ==> lojaId == None && preco == None
    ensures LastSeller(ls, pid).Some? ==>
      lojaId == Some(LastSeller(ls, pid).value.0) && preco == Some(LastSeller(ls, pid).value.1)
  {
    lojaId, preco := None, None;
    var i := 0;
    while i < |ls|
      invariant 0 <= i <= |ls|
      invariant LastSeller(ls[..i], pid).None? ==> lojaId == None && preco == None
      invariant LastSeller(ls[..i], pid).Some? ==>
        lojaId == Some(LastSeller(ls[..i], pid).value.0) && preco == Some(LastSeller(ls[..i], pid).value.1)
    {
      var produtos := ls[i].produtos;
      var j := 0;
      ghost var before := (lojaId, preco);
      while j < |produtos|
        invariant 0 <= j <= |produtos|
        invariant LastPrice(produtos[..j], pid).None? ==> (lojaId, preco) == before
        invariant LastPrice(produtos[..j], pid).Some? ==>
          lojaId == Some(i + 1) && preco == Some(LastPrice(produtos[..j], pid).value)
      {
        LastPriceStep(produtos, j, pid);
        if produtos[j].id == pid {
          lojaId, preco := Some(i + 1), Some(produtos[j].preco);
        }
        j := j + 1;
      }
      assert produtos[..j] == produtos;
      LastSellerStep(ls, i, pid);
      i := i + 1;
    }
    assert ls[..i] == ls;
  }

  /** Adds `d` to the stock of every product of `ps` with id `pid`, one product at a time. */
  method AdjustMatching(ps: seq<Produto>, pid: int, d: int) returns (qs: seq<Produto>)
    ensures qs == AdjustAll(ps, pid, d)
  {
    qs := ps;
    var j := 0;
    while j < |qs|
      invariant 0 <= j <= |qs| == |ps|
      invariant forall m :: 0 <= m < j ==> qs[m] == Adjusted(ps[m], pid, d)
      invariant forall m :: j <= m < |qs| ==> qs[m] == ps[m]
    {
      if qs[j].id == pid {
        qs := qs[j := qs[j].(quantidade := qs[j].quantidade + d)];
      }
      j := j + 1;
    }
  }
}
