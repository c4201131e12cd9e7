/** UidContext from the JEI API: what a unique id or subtype key is computed
    for. */
module Subtypes {
  datatype UidContext = Ingredient | Recipe
}
