/** The canonical schema that both parsers produce and the file generator
    consumes: a model (one table or entity) with naming metadata and an
    ordered list of typed fields. Only the attributes the generator reads
    are modelled. */
module Schema {

  /** A source-notation type reference, e.g. "uuid" or "varchar". */
  datatype Type = Type(name: string)

  /** One attribute of a model. */
  datatype Field = Field(name: string, fieldType: Type, isPrimaryKey: bool)

  /** Naming metadata used to build output paths. */
  datatype Names = Names(singularName: string, pluralName: string)

  /** One generated entity; `fields` keeps declaration order. */
  datatype Model = Model(names: Names, fields: seq<Field>)

  datatype Option<T> = None | Some(value: T)
}
