/**
 The logged food entry (`struct Food`) and the opaque keys it is stored under.
 */
module Entries {

  /** A `UUID`: only ever compared, never computed on, so an opaque number here. */
  type Uuid = nat

  /**
   A calendar day: the result of `Calendar.current.startOfDay(for:)`, i.e. a
   `Date` truncated to local midnight, represented by its day number.
   */
  type Day = int

  /** The range of Swift's `Int` on a 64-bit device; `+` traps outside it. */
  const IntMin: int := -0x8000_0000_0000_0000
  const IntMax: int := 0x7FFF_FFFF_FFFF_FFFF

  /**
   One logged food. `grams` is a Swift `Double` that the core only stores and
   displays, so it is kept as a `real` on which nothing is computed. The four
   nutrient fields are Swift `Int`s.
   */
  datatype Food = Food(
    id: Uuid,
    name: string,
    grams: real,
    cal: int,
    prot: int,
    fat: int,
    carb: int
  )
}
