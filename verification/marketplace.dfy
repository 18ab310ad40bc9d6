/**
 * The in-memory marketplace: registered users, stores with their products,
 * access tokens and the two id counters, changed in place by its operations.
 */
module MarketplaceModel {
  import opened Entities
  import opened Text
  import opened Catalog

  /** What login returns when it fails. */
  const Invalid: string := "invalid"

  /** The user id a token is bound to, or 0 when it is not bound. */
  function TokenOwner(acessos: map<string, int>, token: string): (id: int)
    ensures token in acessos ==> id == acessos[token]
    ensures token !in acessos ==> id == 0
  {
    if token in acessos then acessos[token] else 0
  }

  /**
   * Users are keyed by their email and numbered 1..|usuarios| without gaps or
   * repetitions; `emailsPorId[n - 1]` is the email of user n.
   */
  ghost predicate UsersNumbered(usuarios: map<string, Usuario>, emailsPorId: seq<string>)
  {
    && |emailsPorId| == |usuarios|
    && (forall e :: e in usuarios ==>
          usuarios[e].email == e && 1 <= usuarios[e].id <= |usuarios| && emailsPorId[usuarios[e].id - 1] == e)
    && (forall n :: 0 <= n < |emailsPorId| ==> emailsPorId[n] in usuarios && usuarios[emailsPorId[n]].id == n + 1)
  }

  /** Registering a new email as user |usuarios| + 1 keeps the users numbered. */
  lemma RegisterKeepsNumbered(usuarios: map<string, Usuario>, emailsPorId: seq<string>, u: Usuario)
    requires UsersNumbered(usuarios, emailsPorId)
    requires u.email !in usuarios && u.id == |usuarios| + 1
    ensures UsersNumbered(usuarios[u.email := u], emailsPorId + [u.email])
    ensures |usuarios[u.email := u]| == |usuarios| + 1
  {
    var us := usuarios[u.email := u];
    var es := emailsPorId + [u.email];
    assert |us| == |usuarios| + 1;
    forall e | e in us
      ensures us[e].email == e && 1 <= us[e].id <= |us| && es[us[e].id - 1] == e
    {
      if e != u.email {
        assert e in usuarios && us[e] == usuarios[e];
      }
    }
    forall n | 0 <= n < |es|
      ensures es[n] in us && us[es[n]].id == n + 1
    {
      if n < |emailsPorId| {
        assert es[n] == emailsPorId[n] && emailsPorId[n] in usuarios;
      }
    }
  }

  class Marketplace {
    /** Users by email. */
    var usuarios: map<string, Usuario>
    /** Stores; the store with key (and id) k is at position k - 1. */
    var lojas: seq<Loja>
    /** Access tokens, each bound to a user id. */
    var acessosLiberados: map<string, int>
    /** The sales log. */
    var vendas: seq<Venda>
    /** Id the next product gets. */
    var ultimoProdutoId: int
    /** Id the next sale gets. */
    var ultimaVendaId: int
    /** The password hash function the marketplace was built with. */
    const geraHash: string -> string
    /** Email of each user, by id - 1. */
    ghost var emailsPorId: seq<string>

    /** Users are numbered by id and every token is bound to one of them. */
    ghost predicate UsersValid()
      reads this`usuarios, this`emailsPorId, this`acessosLiberados
    {
      && UsersNumbered(usuarios, emailsPorId)
      && (forall t :: t in acessosLiberados ==> 1 <= acessosLiberados[t] <= |usuarios|)
    }

    /** Stores sit at their keys, belong to registered users and hold products with distinct ids. */
    ghost predicate StoresValid()
      reads this`lojas, this`usuarios, this`ultimoProdutoId
    {
      && IdsAreKeys(lojas)
      && OwnersRegistered(lojas, usuarios)
      && 0 <= ultimoProdutoId
      && ProductIdsFresh(lojas, ultimoProdutoId)
    }

    ghost predicate Valid()
      reads this
    {
      UsersValid() && StoresValid() && 0 <= ultimaVendaId
    }

    /** The registered user with id `n`. */
    ghost function UserWithId(n: int): (u: Usuario)
      reads this
      requires Valid() && 1 <= n <= |usuarios|
      ensures u.email in usuarios && usuarios[u.email] == u && u.id == n
    {
      usuarios[emailsPorId[n - 1]]
    }

    /** An empty marketplace whose passwords are hashed with `geraHash`. */
    constructor (geraHash: string -> string)
      ensures Valid() && this.geraHash == geraHash
      ensures usuarios == map[] && lojas == [] && acessosLiberados == map[] && vendas == []
      ensures ultimoProdutoId == 0 && ultimaVendaId == 0
    {
      this.geraHash := geraHash;
      usuarios, lojas, acessosLiberados, vendas := map[], [], map[], [];
      ultimoProdutoId, ultimaVendaId := 0, 0;
      emailsPorId := [];
    }

    /** token_verify: the id of the user the token is bound to, 0 when it is not bound. */
    method TokenVerify(token: string) returns (id: int)
      requires Valid()
      ensures id == TokenOwner(acessosLiberados, token)
      ensures 0 <= id <= |usuarios|
      ensures id > 0 <==> token in acessosLiberados
    {
      var tokens := acessosLiberados.Keys;
      while tokens != {}
        invariant tokens <= acessosLiberados.Keys
        invariant token in acessosLiberados ==> token in tokens
        decreases tokens
      {
        var t :| t in tokens;
        if t == token {
          return acessosLiberados[t];
        }
        tokens := tokens - {t};
      }
      return 0;
    }

    /**
     * usuario_por_id: the user with id `n`; `None` stands for the default-constructed
     * user the source returns when there is none.
     */
    method UsuarioPorId(n: int) returns (u: Option<Usuario>)
      requires Valid()
      ensures u.Some? <==> 1 <= n <= |usuarios|
      ensures u.Some? ==> u.value.email in usuarios && usuarios[u.value.email] == u.value && u.value.id == n
      ensures u.None? ==> forall e :: e in usuarios ==> usuarios[e].id != n
    {
      ghost var holder := if 1 <= n <= |usuarios| then Some(emailsPorId[n - 1]) else None;
      assert holder.Some? ==> holder.value in usuarios && usuarios[holder.value].id == n;
      var emails := usuarios.Keys;
      while emails != {}
        invariant emails <= usuarios.Keys
        invariant forall e :: e in usuarios && e !in emails ==> usuarios[e].id != n
        decreases emails
      {
        var e :| e in emails;
        if usuarios[e].id == n {
          return Some(usuarios[e]);
        }
        emails := emails - {e};
      }
      return None;
    }

    /**
     * me_cadastrar: registers a user unless the email is taken. The new user gets
     * the next id and the hash of the password.
     */
    method MeCadastrar(nome: string, email: string, senha: string) returns (ok: bool)
      requires Valid()
      modifies this`usuarios, this`emailsPorId
      ensures Valid()
      ensures ok <==> email !in old(usuarios)
      ensures ok ==> usuarios == old(usuarios)[email := Usuario(|old(usuarios)| + 1, email, nome, geraHash(senha))]
      ensures !ok ==> usuarios == old(usuarios)
    {
      if email !in usuarios {
        var novoUsuario := Usuario(|usuarios| + 1, email, nome, geraHash(senha));
        RegisterKeepsNumbered(usuarios, emailsPorId, novoUsuario);
        NewUserKeepsOwners(lojas, usuarios, novoUsuario);
        usuarios := usuarios[email := novoUsuario];
        emailsPorId := emailsPorId + [email];
        return true;
      }
      return false;
    }

    /**
     * login: when the email is registered and the password hashes to the stored
     * hash, binds `token` (the random string of 20 characters the source draws) to the user
     * and returns it; otherwise returns "invalid". A token that is already bound
     * keeps its old binding, as `std::map::insert` does.
     */
    method Login(email: string, senha: string, token: string) returns (r: string)
      requires Valid() && |token| == 20
      modifies this`acessosLiberados
      ensures Valid()
      ensures var ok := email in usuarios && usuarios[email].senhaHash == geraHash(senha);
        && r == (if ok then token else Invalid)
        && (ok && token !in old(acessosLiberados) ==>
              acessosLiberados == old(acessosLiberados)[token := usuarios[email].id]
              && TokenOwner(acessosLiberados, token) == usuarios[email].id >= 1)
        && (!ok || token in old(acessosLiberados) ==> acessosLiberados == old(acessosLiberados))
      ensures forall t :: t != token ==> TokenOwner(acessosLiberados, t) == TokenOwner(old(acessosLiberados), t)
    {
      if email !in usuarios {
        return Invalid;
      }
      var senhaHash := geraHash(senha);
      if usuarios[email].senhaHash == senhaHash {
        if token !in acessosLiberados {
          acessosLiberados := acessosLiberados[token := usuarios[email].id];
        }
        return token;
      }
      return Invalid;
    }

    /**
     * criar_loja: for a bound token, creates a store with the next id, the given
     * name, no products and the token's user as owner; -1 otherwise.
     */
    method CriarLoja(token: string, nome: string) returns (id: int)
      requires Valid()
      modifies this`lojas
      ensures Valid()
      ensures TokenOwner(acessosLiberados, token) == 0 ==> id == -1 && lojas == old(lojas)
      ensures TokenOwner(acessosLiberados, token) != 0 ==>
        && id == |old(lojas)| + 1
        && lojas == old(lojas) + [Loja(id, nome, UserWithId(TokenOwner(acessosLiberados, token)), [])]
    {
      var idUsuario := TokenVerify(token);
      if idUsuario > 0 {
        var proprietario := UsuarioPorId(idUsuario);
        var novaLoja := Loja(|lojas| + 1, nome, proprietario.value, []);
        NewStoreKeepsInvariants(lojas, novaLoja, usuarios, ultimoProdutoId);
        lojas := lojas + [novaLoja];
        return novaLoja.id;
      } else {
        return -1;
      }
    }

    /**
     * adicionar_produto: for a bound token and an existing store, appends a product
     * with the next product id and no stock to that store and returns the id; -1
     * for an unbound token. For a bound token and a missing store the source
     * returns nothing.
     */
    method AdicionarProduto(token: string, lojaId: int, nome: string, preco: Float) returns (r: IntReturn)
      requires Valid()
      modifies this`lojas, this`ultimoProdutoId
      ensures Valid()
      ensures TokenOwner(acessosLiberados, token) == 0 ==>
        r == Returned(-1) && lojas == old(lojas) && ultimoProdutoId == old(ultimoProdutoId)
      ensures TokenOwner(acessosLiberados, token) != 0 && !(1 <= lojaId <= |old(lojas)|) ==>
        r == NoReturn && lojas == old(lojas) && ultimoProdutoId == old(ultimoProdutoId)
      ensures TokenOwner(acessosLiberados, token) != 0 && 1 <= lojaId <= |old(lojas)| ==>
        && r == Returned(old(ultimoProdutoId))
        && ultimoProdutoId == old(ultimoProdutoId) + 1
        && lojas == WithProduct(old(lojas), lojaId - 1, Produto(r.value, nome, preco, 0))
      ensures r.Returned? && r.value != -1 ==>
        forall i, j :: 0 <= i < |old(lojas)| && 0 <= j < |old(lojas)[i].produtos| ==> old(lojas)[i].produtos[j].id != r.value
    {
      var dono := TokenVerify(token);
      if dono != 0 {
        var i := 0;
        while i < |lojas|
          invariant 0 <= i <= |lojas|
          invariant lojas == old(lojas) && ultimoProdutoId == old(ultimoProdutoId)
          invariant !(1 <= lojaId <= i)
        {
          if i + 1 == lojaId {
            var novoProduto := Produto(ultimoProdutoId, nome, preco, 0);
            ultimoProdutoId := ultimoProdutoId + 1;
            NewProductKeepsIdsFresh(lojas, i, novoProduto, old(ultimoProdutoId));
            WithProductKeepsStores(lojas, i, novoProduto, usuarios);
            lojas := WithProduct(lojas, i, novoProduto);
            return Returned(novoProduto.id);
          }
          i := i + 1;
        }
        return NoReturn;
      } else {
        return Returned(-1);
      }
    }

    /**
     * adicionar_estoque: for a bound token, adds `quantidade` to the stock of the
     * first product with id `produtoId` in the store with key `lojaId` and returns
     * the new stock; -1, with nothing changed, when the token, store or product is
     * missing.
     */
    method AdicionarEstoque(token: string, lojaId: int, produtoId: int, quantidade: int) returns (r: int)
      requires Valid()
      modifies this`lojas
      ensures Valid()
      ensures var slot := StockSlot(old(lojas), lojaId, produtoId);
        if TokenOwner(acessosLiberados, token) != 0 && slot.Some? then
          && lojas == AddStock(old(lojas), slot.value.0, slot.value.1, quantidade)
          && r == old(lojas)[slot.value.0].produtos[slot.value.1].quantidade + quantidade
        else
          r == -1 && lojas == old(lojas)
    {
      var dono := TokenVerify(token);
      if dono != 0 {
        var i := 0;
        while i < |lojas|
          invariant 0 <= i <= |lojas|
          invariant lojas == old(lojas)
          invariant 1 <= lojaId <= i ==> IndexOfProduct(lojas[lojaId - 1].produtos, produtoId) == -1
        {
          if i + 1 == lojaId {
            var produtos := lojas[i].produtos;
            var j := 0;
            while j < |produtos|
              invariant 0 <= j <= |produtos|
              invariant forall m :: 0 <= m < j ==> produtos[m].id != produtoId
            {
              if produtos[j].id == produtoId {
                SameShapeKeepsInvariants(lojas, AddStock(lojas, i, j, quantidade), usuarios, ultimoProdutoId);
                lojas := AddStock(lojas, i, j, quantidade);
                return lojas[i].produtos[j].quantidade;
              }
              j := j + 1;
            }
          }
          i := i + 1;
        }
      }
      return -1;
    }

    /**
     * transferir_produto: for a bound token and two different store ids, takes one
     * unit from every product with id `produtoId` in the origin store and adds one
     * to every such product in the destination store. Always returns false.
     */
    method TransferirProduto(token: string, origemId: int, destinoId: int, produtoId: int) returns (ok: bool)
      requires Valid()
      modifies this`lojas
      ensures Valid()
      ensures !ok
      ensures TokenOwner(acessosLiberados, token) != 0 && origemId != destinoId ==>
        lojas == Transferred(old(lojas), origemId, destinoId, produtoId)
      ensures TokenOwner(acessosLiberados, token) == 0 || origemId == destinoId ==> lojas == old(lojas)
    {
      var dono := TokenVerify(token);
      if dono != 0 {
        if origemId != destinoId {
          var i := 0;
          while i < |lojas|
            invariant 0 <= i <= |lojas| == |old(lojas)|
            invariant forall m :: 0 <= m < i ==> lojas[m] == TransferredStore(old(lojas)[m], origemId, destinoId, produtoId)
            invariant forall m :: i <= m < |lojas| ==> lojas[m] == old(lojas)[m]
          {
            if lojas[i].id == origemId {
              var produtos := AdjustMatching(lojas[i].produtos, produtoId, -1);
              lojas := lojas[i := lojas[i].(produtos := produtos)];
            } else if lojas[i].id == destinoId {
              var produtos := AdjustMatching(lojas[i].produtos, produtoId, 1);
              lojas := lojas[i := lojas[i].(produtos := produtos)];
            }
            i := i + 1;
          }
          TransferOnlyTouchesProduct(old(lojas), origemId, destinoId, produtoId);
          SameShapeKeepsInvariants(old(lojas), lojas, usuarios, ultimoProdutoId);
        }
      }
      return false;
    }

    /** buscar_produtos: copies of the products whose name contains `nomeParcial`, store by store. */
    method BuscarProdutos(nomeParcial: string) returns (encontrados: seq<Produto>)
      ensures encontrados == ProductsMatching(lojas, nomeParcial)
    {
      encontrados := [];
      var i := 0;
      while i < |lojas|
        invariant 0 <= i <= |lojas|
        invariant encontrados == ProductsMatching(lojas[..i], nomeParcial)
      {
        encontrados := AppendMatching(encontrados, lojas[i].produtos, nomeParcial);
        ProductsMatchingStep(lojas, i, nomeParcial);
        i := i + 1;
      }
      assert lojas[..i] == lojas;
    }

    /**
     * buscar_produtos with a store id: copies of the products of the store with key
     * `lojaId` whose name contains `nomeParcial`; empty for an unknown key.
     */
    method BuscarProdutosNaLoja(nomeParcial: string, lojaId: int) returns (encontrados: seq<Produto>)
      ensures encontrados == if 1 <= lojaId <= |lojas| then Filtered(lojas[lojaId - 1].produtos, nomeParcial) else []
    {
      encontrados := [];
      var i := 0;
      while i < |lojas|
        invariant 0 <= i <= |lojas|
        invariant encontrados == if 1 <= lojaId <= i then Filtered(lojas[lojaId - 1].produtos, nomeParcial) else []
      {
        if i + 1 == lojaId {
          encontrados := AppendMatching(encontrados, lojas[i].produtos, nomeParcial);
        }
        i := i + 1;
      }
    }

    /** buscar_lojas: copies of the stores whose name contains `nomeParcial`, in key order. */
    method BuscarLojas(nomeParcial: string) returns (encontradas: seq<Loja>)
      ensures encontradas == StoresMatching(lojas, nomeParcial)
    {
      encontradas := [];
      var i := 0;
      while i < |lojas|
        invariant 0 <= i <= |lojas|
        invariant encontradas == StoresMatching(lojas[..i], nomeParcial)
      {
        if Find(lojas[i].nome, nomeParcial).Some? {
          encontradas := encontradas + [lojas[i]];
        }
        assert lojas[..i + 1][..i] == lojas[..i];
        i := i + 1;
      }
      assert lojas[..i] == lojas;
    }

    /** listar_lojas: copies of all stores, in ascending id order. */
    method ListarLojas() returns (encontradas: seq<Loja>)
      requires Valid()
      ensures encontradas == lojas
      ensures forall i :: 0 <= i < |encontradas| ==> encontradas[i].id == i + 1
    {
      encontradas := [];
      var i := 0;
      while i < |lojas|
        invariant 0 <= i <= |lojas|
        invariant encontradas == lojas[..i]
      {
        encontradas := encontradas + [lojas[i]];
        i := i + 1;
      }
    }

    /**
     * comprar_produto: for a bound token, takes the next sale id and returns it.
     * The sale it builds (`venda`, ghost: the source neither stores nor returns it)
     * holds the buyer, the quantity, and the key and price of the last store
     * holding the product; it is not added to the sales log, and no stock changes.
     * For an unbound token the source returns nothing.
     */
    method ComprarProduto(token: string, produtoId: int, quantidade: int) returns (r: IntReturn, ghost venda: Option<Venda>)
      requires Valid()
      modifies this`ultimaVendaId
      ensures Valid()
      ensures TokenOwner(acessosLiberados, token) == 0 ==>
        r == NoReturn && venda == None && ultimaVendaId == old(ultimaVendaId)
      ensures TokenOwner(acessosLiberados, token) != 0 ==>
        && r == Returned(old(ultimaVendaId))
        && ultimaVendaId == old(ultimaVendaId) + 1
        && venda.Some? && venda.value.id == r.value
        && venda.value.compradorId == TokenOwner(acessosLiberados, token)
        && venda.value.quantidade == quantidade
        && venda.value.produtoId == None
        && (LastSeller(lojas, produtoId).None? ==> venda.value.lojaId == None && venda.value.precoUnitario == None)
        && (LastSeller(lojas, produtoId).Some? ==>
              && venda.value.lojaId == Some(LastSeller(lojas, produtoId).value.0)
              && venda.value.precoUnitario == Some(LastSeller(lojas, produtoId).value.1))
    {
      var idUsuario := TokenVerify(token);
      if idUsuario > 0 {
        var id := ultimaVendaId;
        ultimaVendaId := ultimaVendaId + 1;
        assert Valid();
        var lojaId, precoUnitario := LastSellerSearch(lojas, produtoId);
        venda := Some(Venda(id, idUsuario, lojaId, None, quantidade, precoUnitario));
        return Returned(id), venda;
      }
      return NoReturn, None;
    }
  }
}
