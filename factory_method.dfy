/** Factory Method: a factory that makes one item of clothing for each kind
    (Contents.swift, lines 3-69). */
module FactoryMethod {

  /** `ClotheType`. */
  datatype ClotheType = Head | Shues | Pants

  /** The three implementations of the `Clothes` protocol, with their constant
      title, type and color. */
  datatype Clothes = Hat | Shoe | Jeans
  {
    function Title(): string
    {
      match this
      case Hat => "Hat"
      case Shoe => "Shues"
      case Jeans => "Jeans"
    }

    function Type(): ClotheType
    {
      match this
      case Hat => Head
      case Shoe => Shues
      case Jeans => Pants
    }

    function Color(): string
    {
      match this
      case Hat => "Red"
      case Shoe => "white"
      case Jeans => "blue"
    }
  }

  /** `ClothesFactory.createClothes(type:)`: the item made has the requested type. */
  function CreateClothes(t: ClotheType): (item: Clothes)
    ensures item.Type() == t
  {
    match t
    case Shues => Shoe
    case Head => Hat
    case Pants => Jeans
  }

  /** Every kind of clothing is made by the factory, from its own type: the factory
      and `Type` are inverse to each other. */
  lemma CreateClothesOfType(item: Clothes)
    ensures CreateClothes(item.Type()) == item
  {
  }

  /** Different requests give different items. */
  lemma CreateClothesInjective(s: ClotheType, t: ClotheType)
    ensures CreateClothes(s) == CreateClothes(t) <==> s == t
  {
  }

  /** The demonstration: one item of each type, in the order head, shues, pants. */
  lemma FactoryDemo()
    ensures [CreateClothes(Head).Title(), CreateClothes(Shues).Title(), CreateClothes(Pants).Title()]
              == ["Hat", "Shues", "Jeans"]
    ensures [CreateClothes(Head).Color(), CreateClothes(Shues).Color(), CreateClothes(Pants).Color()]
              == ["Red", "white", "blue"]
  {
  }
}
