/** Vocabulary shared by the wrapper layer: identities, raw bytes, element
    types, optional values and the errors the wrapper reports. */
module FlecsTypes {

  /** One byte of raw component storage. */
  newtype byte = x: int | 0 <= x < 256

  const IdBound: int := 0x1_0000_0000_0000_0000

  /** A 64-bit engine identity (ecs_entity_t / ecs_id_t); 0 means "no entity". */
  type Id = x: int | 0 <= x < IdBound

  /** An element type as numpy describes it: an abstract tag together with
      the item size and the alignment numpy reports for it. */
  datatype DType = DType(code: nat, itemsize: nat, alignment: nat)

  /** Element types with a non-zero item size (every numeric and structured
      dtype the wrapper is used with). */
  type ElemType = d: DType | d.itemsize > 0 witness DType(0, 1, 1)

  datatype Option<T> = None | Some(value: T)

  datatype Result<T> = Success(value: T) | Failure(error: Error)

  datatype Error =
    | TypeMismatch          // Entity.set / set_pair: RuntimeError on a dtype mismatch
    | ViewError             // numpy refuses buffer.view(dtype) or the reshape
    | IndexError            // a row or list position out of range
    | KeyError              // a component name absent from the iterator's name map
    | NoView                // the selected handle is not a Component (no create_view)
    | NotPresent            // the engine holds no bytes for (entity, component)
    | StopIteration         // the engine cursor has no further group
    | ComponentNotCreated   // "Component could not be created"
    | FilterCreationFailed  // "Filter creation failed."
    | QueryCreationFailed   // "Query creation failed."
    | BulkCreationFailed    // "Error on bulk creation with ID"
    | TypeError             // int() or a size_t parameter refuses the value (Python TypeError)
}
