/** The product record and the fixed catalog the storefront sells from. */
module Catalog {

  /** The closed set of product categories. */
  datatype Category = Clothing | Cosmetics {
    /** The string that the category is compared by when the catalog is filtered. */
    function Name(): string {
      match this
      case Clothing => "clothing"
      case Cosmetics => "cosmetics"
    }
  }

  /** A product. `price` is in whole rubles; `image` is an opaque URL. */
  datatype Product = Product(
    id: int,
    name: string,
    price: int,
    category: Category,
    image: string,
    description: string)

  const ImagePrefix: string := "https://cdn.poehali.dev/projects/6bd94170-99c2-4006-a6a4-f385facbf1d1/files/"
  const ClothingImage: string := ImagePrefix + "84b214b9-94bc-4c97-8647-ae29c68f1c18.jpg"
  const CosmeticsImage: string := ImagePrefix + "2ae86830-e816-404c-b387-98eb13c73bb8.jpg"
  const HoodieImage: string := ImagePrefix + "c8becdde-8604-49db-83b5-17eb9daaa59c.jpg"

  const Qipao := Product(1, "Традиционное Ципао", 8900, Clothing, ClothingImage,
                         "Элегантное шёлковое платье с цветочным узором")
  const SkinCareSet := Product(2, "Набор для ухода за кожей", 3200, Cosmetics, CosmeticsImage,
                               "Роллер из нефрита и эссенция зелёного чая")
  const DragonHoodie := Product(3, "Худи с драконом", 5400, Clothing, HoodieImage,
                                "Современная уличная мода с восточными мотивами")
  const BambooMascara := Product(4, "Тушь для ресниц \"Бамбук\"", 1450, Cosmetics, CosmeticsImage,
                                 "Натуральные компоненты для объёма")
  const HanfuShirt := Product(5, "Льняная рубашка Ханьфу", 6700, Clothing, ClothingImage,
                              "Традиционный крой с современным кроем")
  const RiceSerum := Product(6, "Сыворотка с рисом", 2800, Cosmetics, CosmeticsImage,
                             "Увлажнение и сияние кожи")

  /** The catalog, in display order. */
  const Products: seq<Product> := [Qipao, SkinCareSet, DragonHoodie, BambooMascara, HanfuShirt, RiceSerum]

  /** Every product in `ps` has a distinct id. */
  predicate DistinctIds(ps: seq<Product>) {
    forall i, j :: 0 <= i < j < |ps| ==> ps[i].id != ps[j].id
  }

  /** The catalog's ids are distinct and positive and its prices are positive. */
  lemma CatalogWellFormed()
    ensures |Products| == 6
    ensures DistinctIds(Products)
    ensures forall i :: 0 <= i < |Products| ==> Products[i].id == i + 1 && Products[i].price > 0
  {
  }
}
