/** Part of the static catalogue: one dish with sizes and add-ons, the saved
    addresses and the payment methods, with worked examples of the pricing. */
module MockData {
  import opened Types
  import opened Pricing
  import CartContext

  const Small: DishSize := DishSize("s1", "Маленькая 25см", 0)
  const Medium: DishSize := DishSize("s2", "Средняя 30см", 200)
  const Large: DishSize := DishSize("s3", "Большая 35см", 350)

  const ExtraCheese: DishOption := DishOption("o1", "Дополнительный сыр", 100)
  const Mushrooms: DishOption := DishOption("o2", "Грибы", 80)
  const Olives: DishOption := DishOption("o3", "Оливки", 70)

  const Margherita: Dish := Dish(
    "1", "1", "Маргарита",
    "Классическая пицца с томатами и моцареллой",
    "Томаты, моцарелла, базилик, оливковое масло",
    "https://images.unsplash.com/photo-1574071318508-1cdbab80d002?w=800",
    550, "Пицца",
    Some([Small, Medium, Large]),
    Some([ExtraCheese, Mushrooms, Olives]),
    Some(true))

  const Addresses: seq<Address> := [
    Address("a1", "Дом", "ул. Ленина", "25", Some("42"), Some("5"),
            Some("Домофон работает, позвоните за 5 минут")),
    Address("a2", "Работа", "пр. Мира", "100", Some("офис 305"), Some("3"),
            Some("Вход со двора, синяя дверь"))
  ]

  const PaymentMethods: seq<PaymentMethod> := [
    PaymentMethod("p1", Card, "Карта **** 4242", Some("4242"), "💳"),
    PaymentMethod("p2", Cash, "Наличные", None, "💵"),
    PaymentMethod("p3", ApplePay, "Apple Pay", None, "")
  ]

  /** A medium Margherita with extra cheese, two of them:
      (550 + 200 + 100) * 2. */
  lemma MargheritaLineExample(id: string)
    ensures CartContext.NewItem(id, Margherita, 2, Some(Medium), Some([ExtraCheese])).totalPrice == 1700
  {
    assert OptionsSum([ExtraCheese]) == 100 by {
      assert [ExtraCheese][..0] == [];
    }
    assert Margherita.price == 550 && Medium.price == 200;
  }

  /** Without a size or add-ons a line costs the base price per unit. */
  lemma MargheritaPlainExample(id: string)
    ensures CartContext.NewItem(id, Margherita, 3, None, None).totalPrice == 1650
  {
  }

  /** All three add-ons on a large Margherita: 550 + 350 + 100 + 80 + 70. */
  lemma MargheritaEverythingExample()
    ensures UnitPrice(Margherita, Some(Large), Some([ExtraCheese, Mushrooms, Olives])) == 1150
  {
    var opts := [ExtraCheese, Mushrooms, Olives];
    OptionsSumCons(ExtraCheese, [Mushrooms, Olives]);
    OptionsSumCons(Mushrooms, [Olives]);
    OptionsSumCons(Olives, []);
    assert [Olives] + [] == [Olives];
    assert [Mushrooms] + [Olives] == [Mushrooms, Olives];
    assert [ExtraCheese] + [Mushrooms, Olives] == opts;
  }
}
