/** Values that cross the HTTP boundary of the API: optional request fields
    with JavaScript truthiness, the claims carried by a session token, role
    names and the status codes the handlers answer with. */
module Values {

  datatype Option<+T> = None | Some(value: T)

  /** A string field of a JSON request body; `None` stands for a field that
      is absent, `null` or `undefined`. */
  type Field = Option<string>

  /** `!!field` for a string field: absent and "" are falsy. */
  predicate Truthy(f: Field) {
    f.Some? && f.value != ""
  }

  /** `!!field` for a numeric field (an id or a grade): absent and 0 are falsy. */
  predicate TruthyNum(f: Option<int>) {
    f.Some? && f.value != 0
  }

  /** `field || null`, as written into a nullable column. */
  function OrNull(f: Field): Field {
    if Truthy(f) then f else None
  }

  /** `field || null` for a numeric field: 0 is written as NULL too. */
  function OrNullNum(f: Option<int>): Option<int> {
    if TruthyNum(f) then f else None
  }

  /** `field || previous` for a NOT NULL column. */
  function OrElse(f: Field, previous: string): string {
    if Truthy(f) then f.value else previous
  }

  /** `field || previous` for a nullable column. */
  function OrKeep(f: Field, previous: Field): Field {
    if Truthy(f) then f else previous
  }

  /** The payload of a session token (`crearToken`) and of the `user` object
      the account routes answer with. */
  datatype Claims = Claims(id: int, nombre: string, email: string, rol: string)

  const ESTUDIANTE: string := "estudiante"
  const PROFESOR: string := "profesor"

  const OK: int := 200
  const CREATED: int := 201
  const BAD_REQUEST: int := 400
  const UNAUTHORIZED: int := 401
  const FORBIDDEN: int := 403
  const NOT_FOUND: int := 404
  const INTERNAL_ERROR: int := 500
}
