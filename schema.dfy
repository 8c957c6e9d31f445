/** The relational store the API works on: the six tables, one id counter
    per table (standing for AUTO_INCREMENT, but advanced only by a successful
    INSERT), the uniqueness constraints the handlers rely on,
    and the JOINs through which rows are looked up. */
module Schema {
  import opened Values

  datatype Usuario = Usuario(nombre: string, email: string, contrasena: string, rol: string)

  datatype Materia = Materia(nombre: string, descripcion: Field, codigo: Field, profesorId: int)

  /** A row of `inscripciones`: one student enrolled in one subject. */
  datatype Inscripcion = Inscripcion(estudianteId: int, materiaId: int)

  datatype Tarea = Tarea(
    materiaId: int, titulo: string, descripcion: Field, fechaEntrega: Field, archivoUrl: Field)

  /** A submission; `calificacion == None` is SQL NULL, an ungraded submission. */
  datatype Entrega = Entrega(
    tareaId: int, estudianteId: int, contenido: Field, archivoUrl: Field,
    calificacion: Option<int>, comentario: Field)

  datatype Comentario = Comentario(tareaId: int, usuarioId: int, texto: string)

  /** Per table, the id the model assigns to the next successful INSERT (what
      the handler reads as `result.insertId`). A failed INSERT leaves it as it
      is. */
  datatype NextIds = NextIds(usuario: int, materia: int, tarea: int, entrega: int, comentario: int)

  datatype Db = Db(
    usuarios: map<int, Usuario>,
    materias: map<int, Materia>,
    inscripciones: set<Inscripcion>,
    tareas: map<int, Tarea>,
    entregas: map<int, Entrega>,
    comentarios: map<int, Comentario>,
    next: NextIds)
  {
    /** What holds of every store the API can reach: ids are positive and
        below their counter, e-mails are non-empty and unique, non-NULL subject
        codes are unique, and a student has at most one submission per task.
        The enrollment table is a set, so its (student, subject) key is unique
        by construction. */
    ghost predicate Valid() {
      && IdsBelow(usuarios, next.usuario)
      && IdsBelow(materias, next.materia)
      && IdsBelow(tareas, next.tarea)
      && IdsBelow(entregas, next.entrega)
      && IdsBelow(comentarios, next.comentario)
      && UniqueEmails(usuarios)
      && (forall id :: id in usuarios ==> usuarios[id].email != "")
      && UniqueCodigos(materias)
      && OneEntregaPerTask(entregas)
    }
  }

  /** The store of a freshly created schema. */
  const Empty: Db := Db(map[], map[], {}, map[], map[], map[], NextIds(1, 1, 1, 1, 1))

  ghost predicate IdsBelow<T>(rows: map<int, T>, next: int) {
    1 <= next && forall id :: id in rows ==> 1 <= id < next
  }

  ghost predicate UniqueEmails(usuarios: map<int, Usuario>) {
    forall a, b :: a in usuarios && b in usuarios && usuarios[a].email == usuarios[b].email ==> a == b
  }

  ghost predicate UniqueCodigos(materias: map<int, Materia>) {
    forall a, b ::
      a in materias && b in materias && materias[a].codigo.Some? && materias[a].codigo == materias[b].codigo
      ==> a == b
  }

  ghost predicate OneEntregaPerTask(entregas: map<int, Entrega>) {
    forall a, b ::
      a in entregas && b in entregas
      && entregas[a].tareaId == entregas[b].tareaId && entregas[a].estudianteId == entregas[b].estudianteId
      ==> a == b
  }

  /** `SELECT id FROM usuarios WHERE email = ? [AND id != self]`, non-empty. */
  predicate EmailInUse(db: Db, email: string, self: Option<int>) {
    exists id :: id in db.usuarios && db.usuarios[id].email == email && Some(id) != self
  }

  /** Whether a non-NULL code would violate the UNIQUE index on `materias.codigo`
      if written into row `self` (or into a new row when `self` is None). */
  predicate CodigoInUse(db: Db, codigo: Field, self: Option<int>) {
    codigo.Some? && exists id :: id in db.materias && db.materias[id].codigo == codigo && Some(id) != self
  }

  /** Whether the student already has a row in `entregas` for the task. */
  predicate EntregaExists(db: Db, tareaId: int, estudianteId: int) {
    exists id :: id in db.entregas && db.entregas[id].tareaId == tareaId && db.entregas[id].estudianteId == estudianteId
  }

  predicate Enrolled(db: Db, estudianteId: int, materiaId: int) {
    Inscripcion(estudianteId, materiaId) in db.inscripciones
  }

  /** `tareas t JOIN materias m ON t.materia_id = m.id`, projected on
      `m.profesor_id`: present only when the task and its subject both exist. */
  function TareaProfesor(db: Db, tareaId: int): (p: Option<int>)
    ensures p.Some? <==> tareaId in db.tareas && db.tareas[tareaId].materiaId in db.materias
    ensures p.Some? ==> p.value == db.materias[db.tareas[tareaId].materiaId].profesorId
  {
    if tareaId in db.tareas && db.tareas[tareaId].materiaId in db.materias
    then Some(db.materias[db.tareas[tareaId].materiaId].profesorId)
    else None
  }

  /** `entregas e JOIN tareas t JOIN materias m`, projected on `m.profesor_id`. */
  function EntregaProfesor(db: Db, entregaId: int): (p: Option<int>)
    ensures p.Some? <==>
      && entregaId in db.entregas && db.entregas[entregaId].tareaId in db.tareas
      && db.tareas[db.entregas[entregaId].tareaId].materiaId in db.materias
    ensures p.Some? ==> p.value == db.materias[db.tareas[db.entregas[entregaId].tareaId].materiaId].profesorId
  {
    if entregaId in db.entregas then TareaProfesor(db, db.entregas[entregaId].tareaId) else None
  }

  /** `comentarios c JOIN tareas t JOIN materias m`, projected on `m.profesor_id`. */
  function ComentarioProfesor(db: Db, comentarioId: int): (p: Option<int>)
    ensures p.Some? <==>
      && comentarioId in db.comentarios && db.comentarios[comentarioId].tareaId in db.tareas
      && db.tareas[db.comentarios[comentarioId].tareaId].materiaId in db.materias
    ensures p.Some? ==> p.value == db.materias[db.tareas[db.comentarios[comentarioId].tareaId].materiaId].profesorId
  {
    if comentarioId in db.comentarios then TareaProfesor(db, db.comentarios[comentarioId].tareaId) else None
  }

  /** What a mutating route answers with besides its status. */
  datatype Body =
    | Message
      /** `{ token, user }`: the token signs exactly these claims. */
    | Session(user: Claims)
      /** `{ materiaId | tareaId | entregaId | comentarioId }`: `result.insertId`. */
    | NewId(id: int)

  /** The status, the store afterwards and the body of a mutating route. */
  datatype Outcome = Outcome(status: int, db: Db, body: Body)

  /** The status and the rows of a reading route (rows keyed by id). */
  datatype View<T> = View(status: int, rows: T)
}
