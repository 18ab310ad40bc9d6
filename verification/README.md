# Marketplace — a Dafny model

This project models the in-memory `Marketplace` class of `marketplace.cpp`, a
small C++ marketplace. The class keeps:

- registered users (`usuarios`), keyed by email;
- stores (`lojas`), keyed by id, each with a list of products;
- access tokens (`acessos_liberados`), each bound to a user id;
- a sales log (`vendas`);
- two counters, for product ids and sale ids.

Its operations change these tables in place:

- registration (`me_cadastrar`) and `login`;
- token and user lookup (`token_verify`, `usuario_por_id`);
- store creation (`criar_loja`);
- adding a product and its stock (`adicionar_produto`, `adicionar_estoque`);
- stock transfer (`transferir_produto`);
- name searches (`buscar_produtos`, in two overloads, and `buscar_lojas`);
- store listing (`listar_lojas`);
- purchase (`comprar_produto`).

The files:

- `entities.dfy` (module `Entities`): the records `Usuario`, `Produto`, `Loja`
  and `Venda` as datatypes, plus:
  - `Float`, the bit pattern of a C++ `float`;
  - `IntReturn`, for an `int` function that can fall off its end without a `return`.
- `text.dfy` (module `Text`): `std::string::find` as `Find`, with the substring
  relation it decides.
- `catalog.dfy` (module `Catalog`): the store table as a value. A
  `std::map<int, Loja>` whose keys are always 1..n iterates in key order, so it is
  a `seq<Loja>` whose position k - 1 holds the store with key k. The module holds:
  - the table's invariants: ids are keys, owners are registered, product ids are
    distinct and below the counter;
  - the functions that say what each operation does to the table;
  - the lemmas about them;
  - the loops over one store's product list, as methods specified by those functions.
- `marketplace.dfy` (module `MarketplaceModel`): class `Marketplace`.
  - Its fields are the C++ fields. `Valid()` is their invariant: the constructor
    establishes it and every method keeps it.
  - Each operation is a method with the source's loops, proved against the
    functions of `Catalog`.
  - The ghost field `emailsPorId` lists the users' emails by id. It records that
    user ids are exactly 1..|usuarios|.

## Model

| member | source | states |
|---|---|---|
| Text.FindFrom | marketplace.cpp:278 | returns the first position at or after `from` where the pattern occurs; `None` (npos) exactly when it occurs nowhere from there |
| Text.Find | marketplace.cpp:278 | `find` succeeds exactly when the pattern is a substring, and then returns its first occurrence |
| Catalog.SameShapeKeepsInvariants | marketplace.cpp:213 | changing only stock quantities keeps store ids = keys, owners registered and product ids distinct and below the counter |
| Catalog.NewUserKeepsOwners | marketplace.cpp:101-107 | registering a new email leaves every store owner a registered user, unchanged |
| Catalog.NewStoreKeepsInvariants | marketplace.cpp:155-159 | a store keyed `size() + 1` with no products and a registered owner keeps all table invariants |
| Catalog.WithProduct | marketplace.cpp:184 | appending a product changes only the product list of that one store, at its end |
| Catalog.WithProductKeepsStores | marketplace.cpp:177-184 | appending a product keeps store ids = keys and owners registered |
| Catalog.NewProductKeepsIdsFresh | marketplace.cpp:180-184 | a product with id = the counter, appended to any store, keeps all product ids distinct and below the incremented counter |
| Catalog.IndexOfProduct | marketplace.cpp:210-211 | the first product in the list with the given id, or -1 exactly when none has it |
| Catalog.StockSlot | marketplace.cpp:207-211 | the (store, product) position that `adicionar_estoque` updates: the first product with the id in the store with the key; none exactly when the store is missing or holds no such product |
| Catalog.AddStock | marketplace.cpp:213 | adds the delta to one product's stock; every other store, product and field is unchanged |
| Catalog.IndexOfProductIgnoresStock | marketplace.cpp:210-211 | which product is found by id does not depend on stock |
| Catalog.StockAccumulates | marketplace.cpp:204-223 | after adding `a`, the same product is found again, and adding `b` then gives stock q + a + b, the same table as one addition of a + b (10 then 5 from 0 gives 15) |
| Catalog.AddStockTwice | marketplace.cpp:213 | two additions to one stock equal one addition of their sum |
| Catalog.AdjustAll | marketplace.cpp:247-259 | every product keeps its id, name and price; a product with the id gets the delta added to its stock, every other product keeps its stock |
| Catalog.Transferred | marketplace.cpp:245-262 | the table after a transfer: same stores and products; products with the id lose 1 in the origin store and gain 1 in the destination store; every other stock as it was |
| Catalog.AdjustAllAbsent | marketplace.cpp:247-251 | adjusting a product id that no product has changes nothing |
| Catalog.TransferOnlyTouchesProduct | marketplace.cpp:241-266 | a transfer changes only stock, only in the origin and destination stores, and only of products with the given id |
| Catalog.TransferNeverMovesStock | marketplace.cpp:244-262 | because product ids are unique, a transfer between two different stores leaves the origin or the destination as it was: stock never moves from one to the other |
| Catalog.LastPrice | marketplace.cpp:356-360 | price of the last product in the list with the id; none exactly when no product has it |
| Catalog.LastSeller | marketplace.cpp:355-361 | key of the last store holding the product, with its price: no store after it holds the product; none exactly when no store holds it |
| Catalog.UniqueSeller | marketplace.cpp:355-361 | with distinct product ids, the sale's store and price are those of the one product with the id |
| Catalog.Filtered | marketplace.cpp:297-301 | a product is in the result exactly when it is in the list and its name contains the pattern; the result is no longer than the list |
| Catalog.ProductsMatching | marketplace.cpp:276-282 | a product is in the result exactly when some store holds it and its name contains the pattern |
| Catalog.StoresMatching | marketplace.cpp:315-319 | a store is in the result exactly when it is in the table and its name contains the pattern; no longer than the table |
| Catalog.AppendMatching | marketplace.cpp:277-281 | the loop over one store's products appends exactly the matching products, in list order |
| Catalog.LastSellerSearch | marketplace.cpp:355-362 | the nested loop leaves the sale's store key and unit price as `LastSeller` gives them, and leaves both unset when no product matches |
| Catalog.AdjustMatching | marketplace.cpp:247-251 | the loop over a store's products adds the delta to every product with the id, and to no other product |
| MarketplaceModel.TokenOwner | marketplace.cpp:70-77 | the user id a token is bound to in the token table, 0 for a token that is not bound |
| MarketplaceModel.RegisterKeepsNumbered | marketplace.cpp:103-107 | a new user numbered `size() + 1` keeps user ids exactly 1..\|usuarios\|, one user per id |
| MarketplaceModel.Marketplace.UserWithId | marketplace.cpp:79-86 | for every id in 1..\|usuarios\| there is a registered user with that id |
| MarketplaceModel.Marketplace.constructor | marketplace.cpp:56-68 | an empty marketplace with both counters at 0 |
| MarketplaceModel.Marketplace.TokenVerify | marketplace.cpp:70-77 | the user id bound to the token (at least 1), or 0 exactly when the token is unbound |
| MarketplaceModel.Marketplace.UsuarioPorId | marketplace.cpp:79-86 | the registered user with the id, found exactly when the id is in 1..\|usuarios\|; otherwise no user has that id |
| MarketplaceModel.Marketplace.MeCadastrar | marketplace.cpp:96-111 | false with users unchanged when the email is taken; otherwise true and exactly one new user keyed by the email, with id old size + 1 and the password's hash |
| MarketplaceModel.Marketplace.Login | marketplace.cpp:121-139 | "invalid" with tokens unchanged for an unknown email or a wrong hash; otherwise the token, a string of 20 characters and so never "invalid", bound to the user's id unless it was already bound; no other token changes |
| MarketplaceModel.Marketplace.CriarLoja | marketplace.cpp:151-165 | -1 with stores unchanged for an unbound token; otherwise id = old size + 1 and one store appended with that id, the name, no products and the token's user as owner |
| MarketplaceModel.Marketplace.AdicionarProduto | marketplace.cpp:174-192 | -1 and no change for an unbound token. A missing store gives no return value and no change. Otherwise the old counter is returned, the counter goes up by 1, and one product with that id and stock 0 is appended to that store only. The new id differs from every product's id before |
| MarketplaceModel.Marketplace.AdicionarEstoque | marketplace.cpp:204-223 | for a bound token and a found product: that product's stock grows by the amount and the new stock is returned, nothing else changes; otherwise -1 and no change |
| MarketplaceModel.Marketplace.TransferirProduto | marketplace.cpp:241-266 | always false; no change for an unbound token or equal stores; otherwise the table becomes `Transferred` (origin products with the id lose 1, destination ones gain 1) |
| MarketplaceModel.Marketplace.BuscarProdutos | marketplace.cpp:274-284 | exactly the products whose name contains the pattern, store by store in key order, list order within a store |
| MarketplaceModel.Marketplace.BuscarProdutosNaLoja | marketplace.cpp:293-305 | the matching products of the store with the key, in list order; empty for an unknown key |
| MarketplaceModel.Marketplace.BuscarLojas | marketplace.cpp:313-321 | exactly the stores whose name contains the pattern, in key order |
| MarketplaceModel.Marketplace.ListarLojas | marketplace.cpp:328-336 | all stores, in ascending id order, the i-th having id i + 1 |
| MarketplaceModel.Marketplace.ComprarProduto | marketplace.cpp:347-365 | for a bound token it returns the old sale counter and increments it. The sale it builds has the buyer, the quantity, the last matching store and price, and no product id. Nothing else changes: stock, stores, users, tokens and the sales log stay as they were. An unbound token gives no return value |

## Where the code and its comments differ

The model follows the code:

- `criar_loja` (marketplace.cpp:148-149): the comment promises -1 when a store
  with the same name exists. The code does not check names.
- `adicionar_produto` (marketplace.cpp:169): the comment says only the store's
  owner may add products. The code accepts any bound token. With a bound token
  and a store id that does not exist, control falls off the end of the function,
  so no value is returned (`NoReturn`).
- `transferir_produto` (marketplace.cpp:229-239): the comment asks three things.
  The code checks only that the two store ids differ.
  - The comment asks that both stores belong to the user; the code does not check this.
  - The comment asks that the product be in the origin store; the code does not check this.
  - The comment promises true on success; the code always returns false.
  - Product ids are unique across stores, so a transfer never takes stock from
    one store and gives it to the other (`Catalog.TransferNeverMovesStock`).
- `comprar_produto` (marketplace.cpp:338-346): the comment says it creates a sale
  and returns -1 when it cannot. The code differs in three ways:
  - it never stores the sale in `vendas`;
  - it never sets its product id;
  - for an unbound token it falls off its end.

Separately from its comment, `comprar_produto` (marketplace.cpp:347-365) leaves
every stock as it was: a purchase does not reduce the quantity of the product.

## Left out

- `geraHash` and `genRandomString` come from `utils.h`, which is not part of this
  model. The hash is a function the marketplace is constructed with. The random
  token is a parameter of `Login`, required to have the 20 characters
  `genRandomString(20)` gives it (marketplace.cpp:133).
- The console output at marketplace.cpp:160 and 185, and the `show_*` debug
  printers (marketplace.cpp:369-386). They are output only.
- `main` and its `testa` checks (marketplace.cpp:391-523). This is the program's
  test script, not part of the class. Its stock example is an instance of
  `Catalog.StockAccumulates`.
- Strings are sequences of characters. `Find` returns character positions, while
  `std::string::find` returns byte offsets, which differ for names with non-ASCII
  letters. The searches only test found or not found (marketplace.cpp:278, 298,
  316), and that answer is the same in both.
- Floating point. Prices are only stored and copied, so `Float` is an opaque
  32-bit pattern.
- Undefined behaviour is not resolved.
  - A missing `return` is the `NoReturn` result.
  - An uninitialised sale field is `None`.
  - The sale itself is a ghost out-parameter, because the source neither stores
    nor returns it.
- `std::map` iteration order over users and tokens: `TokenVerify` and
  `UsuarioPorId` visit the keys in an arbitrary order. Keys and user ids are
  unique, so every order gives the same result.
- `usuario_por_id` returns a default-constructed `Usuario` when no user has the
  id; the model returns `None`. Every call from `criar_loja` has an id that exists.
- Every method requires `Valid()`. This is the invariant the constructor
  establishes and every operation keeps, not a demand the source makes.
- Users, stores and products are values, as in the source, where every lookup
  and search returns copies.
- MeCadastrar: does not model 32-bit `int` overflow of `usuarios.size() + 1`;
  integers are unbounded.
- AdicionarProduto: does not model 32-bit overflow of the product counter.
- AdicionarEstoque: does not model 32-bit overflow of `quantidade += quantidade`.
- TransferirProduto: does not model 32-bit overflow of the `++`/`--` on stock.
- ComprarProduto: does not model 32-bit overflow of the sale counter.
