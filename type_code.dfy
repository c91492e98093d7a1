/** The logical data types that conversion and validation are driven by. */
module TypeCodes {
  datatype TypeCode =
    | Unknown | String | Boolean | Integer | Long | Float | Double
    | DateTime | Duration | Object | Enum | Array | Map
}
