/** The objects that can be put on the balance, and the nominal mass of each. */
module Catalogue {

  /** The kind of a draggable object: one per CSS class the page marks it with.
      A `Weight4` carries the value of its animal-type data attribute, which picks
      its mass from the same table as the other kinds. The other kinds are taken to
      carry no such attribute, which holds for the page's own elements. */
  datatype Kind = Weight1 | Weight2 | Weight3 | Weight4(tag: string) | PetriDish | WeighingPaper

  /** One draggable element of the page. Equality is element identity: two elements
      of the same kind are told apart by `id`. */
  datatype Item = Item(id: nat, kind: Kind)

  /** Nominal masses in grams, keyed by class name or by animal-type tag. */
  const MassTable: map<string, real> := map[
    "weight1" := 25.0, "weight2" := 50.0, "weight3" := 100.0,
    "rabbit" := 75.5, "cat" := 123.0, "powder" := 50.8,
    "petri-dish" := 15.2,
    "weighing-paper" := 0.3
  ]

  /** The class name a kind is marked with on the page. */
  function ClassName(k: Kind): string {
    match k
    case Weight1 => "weight1"
    case Weight2 => "weight2"
    case Weight3 => "weight3"
    case Weight4(_) => "weight4"
    case PetriDish => "petri-dish"
    case WeighingPaper => "weighing-paper"
  }

  /** Mass looked up by a tag; a tag the table does not list weighs nothing.
      Every listed mass is positive, so "falls back to 0" and "is unlisted" coincide. */
  function TagMass(tag: string): (m: real)
    ensures m >= 0.0
    ensures m == 0.0 <==> tag !in MassTable
    ensures tag in MassTable ==> m == MassTable[tag]
    ensures tag == "rabbit" ==> m == 75.5
    ensures tag == "cat" ==> m == 123.0
    ensures tag == "powder" ==> m == 50.8
  {
    if tag in MassTable then MassTable[tag] else 0.0
  }

  /** Nominal mass of an object of kind `k`. */
  function MassOf(k: Kind): (m: real)
    ensures m >= 0.0
    ensures m == 0.0 <==> k.Weight4? && k.tag !in MassTable
    ensures k == Weight1 ==> m == 25.0
    ensures k == Weight2 ==> m == 50.0
    ensures k == Weight3 ==> m == 100.0
    ensures k == PetriDish ==> m == 15.2
    ensures k == WeighingPaper ==> m == 0.3
    ensures k.Weight4? ==> m == TagMass(k.tag)
    ensures k == Weight4("rabbit") ==> m == 75.5
    ensures k == Weight4("cat") ==> m == 123.0
    ensures k == Weight4("powder") ==> m == 50.8
  {
    match k
    case Weight4(tag) => TagMass(tag)
    case _ => MassTable[ClassName(k)]
  }

  /** Because tags and class names share one table, a weight4 tagged with a class
      name weighs what an object of that class weighs. */
  lemma TagSharesClassTable(k: Kind)
    requires !k.Weight4?
    ensures MassOf(Weight4(ClassName(k))) == MassOf(k)
  {
  }

  /** A loose substance: an element whose animal-type attribute is "powder". Only a
      weight4 carries that attribute here, so this is a weight4 tagged "powder". */
  predicate IsPowder(x: Item) {
    x.kind.Weight4? && x.kind.tag == "powder"
  }

  /** A container a loose substance may be weighed on. */
  predicate IsContainer(x: Item) {
    x.kind.PetriDish? || x.kind.WeighingPaper?
  }
}
