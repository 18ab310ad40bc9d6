/** The records of the marketplace: users, products, stores and sales. */
module Entities {

  datatype Option<+T> = None | Some(value: T)

  /** The bit pattern of a C++ `float`. Prices are stored and copied, never computed with. */
  datatype Float = Float(bits: bv32)

  /**
   * What a C++ function returning `int` hands back: a value, or nothing at all
   * because control reaches the end of the function without a `return`
   * (undefined behaviour in C++, which the model does not resolve).
   */
  datatype IntReturn = Returned(value: int) | NoReturn

  /** A registered user; `senhaHash` is the hash of the password, never the password. */
  datatype Usuario = Usuario(id: int, email: string, nome: string, senhaHash: string)

  /** A product of a store; `quantidade` is its stock. */
  datatype Produto = Produto(id: int, nome: string, preco: Float, quantidade: int)

  /** A store: its owner is a copy of the user taken when the store was created. */
  datatype Loja = Loja(id: int, nome: string, proprietario: Usuario, produtos: seq<Produto>)

  /**
   * A sale. `None` marks a field the source leaves uninitialised: the store and
   * unit price when no product matches, and the product id always.
   */
  datatype Venda = Venda(
    id: int,
    compradorId: int,
    lojaId: Option<int>,
    produtoId: Option<int>,
    quantidade: int,
    precoUnitario: Option<Float>)
}
