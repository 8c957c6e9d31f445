/** The subject routes (`/materias`), the enrollment routes (`/inscripciones`)
    and `GET /mi/materias`. */
module Materias {
  import opened Values
  import opened Schema
  import opened Gates

  /** The subject row `POST /materias` inserts. */
  function NewMateria(caller: Claims, nombre: Field, descripcion: Field, codigo: Field): Materia
    requires Truthy(nombre)
  {
    Materia(nombre.value, OrNull(descripcion), OrNull(codigo), caller.id)
  }

  /** `POST /materias`, for teachers: the caller becomes the subject's owner. */
  function CreateMateria(db: Db, caller: Claims, nombre: Field, descripcion: Field, codigo: Field): (r: Outcome)
    ensures r.status in {CREATED, BAD_REQUEST, FORBIDDEN}
    ensures caller.rol != PROFESOR ==> r.status == FORBIDDEN
    ensures r.status == CREATED <==>
      caller.rol == PROFESOR && Truthy(nombre) && !CodigoInUse(db, OrNull(codigo), None)
    ensures r.status == BAD_REQUEST <==>
      caller.rol == PROFESOR && (!Truthy(nombre) || CodigoInUse(db, OrNull(codigo), None))
    ensures r.status != CREATED ==> r.db == db
    ensures r.status == CREATED ==>
      var id := db.next.materia;
      && r.db == db.(materias := db.materias[id := NewMateria(caller, nombre, descripcion, codigo)],
                     next := db.next.(materia := id + 1))
      && r.db.materias[id].profesorId == caller.id
      && r.body == NewId(id)
    ensures db.Valid() ==> r.db.Valid()
  {
    if !RolesPermitidos([PROFESOR], Some(caller)) then Outcome(FORBIDDEN, db, Message)
    else if !Truthy(nombre) then Outcome(BAD_REQUEST, db, Message)
    else if CodigoInUse(db, OrNull(codigo), None) then
      // ER_DUP_ENTRY on the unique `codigo`
      Outcome(BAD_REQUEST, db, Message)
    else
      var id := db.next.materia;
      Outcome(CREATED, db.(materias := db.materias[id := NewMateria(caller, nombre, descripcion, codigo)],
                           next := db.next.(materia := id + 1)), NewId(id))
  }

  /** `GET /materias`: every subject whose teacher row exists (the JOIN on
      `usuarios` drops the others). */
  function ListMaterias(db: Db): (r: View<map<int, Materia>>)
    ensures r.status == OK
    ensures forall m :: m in r.rows <==> m in db.materias && db.materias[m].profesorId in db.usuarios
    ensures forall m :: m in r.rows ==> r.rows[m] == db.materias[m]
  {
    View(OK, map m | m in db.materias && db.materias[m].profesorId in db.usuarios :: db.materias[m])
  }

  /** `GET /materias/:id`. */
  function GetMateria(db: Db, id: int): (r: View<Option<Materia>>)
    ensures r.status in {OK, NOT_FOUND}
    ensures r.status == OK <==> id in db.materias && db.materias[id].profesorId in db.usuarios
    ensures r.status == OK ==> r.rows == Some(db.materias[id])
    ensures r.status == NOT_FOUND ==> r.rows == None
  {
    if id in db.materias && db.materias[id].profesorId in db.usuarios then View(OK, Some(db.materias[id]))
    else View(NOT_FOUND, None)
  }

  /** The row `PUT /materias/:id` writes: each falsy field keeps its old value
      and the owner is carried over. */
  function EditedMateria(m: Materia, nombre: Field, descripcion: Field, codigo: Field): Materia {
    Materia(OrElse(nombre, m.nombre), OrKeep(descripcion, m.descripcion), OrKeep(codigo, m.codigo), m.profesorId)
  }

  /** `PUT /materias/:id`, for the owning teacher; 404 is decided before 403. */
  function UpdateMateria(db: Db, caller: Claims, id: int, nombre: Field, descripcion: Field, codigo: Field): (r: Outcome)
    ensures r.status in {OK, FORBIDDEN, NOT_FOUND, INTERNAL_ERROR}
    ensures caller.rol != PROFESOR ==> r.status == FORBIDDEN
    ensures caller.rol == PROFESOR && id !in db.materias ==> r.status == NOT_FOUND
    ensures caller.rol == PROFESOR && id in db.materias && db.materias[id].profesorId != caller.id ==> r.status == FORBIDDEN
    ensures r.status == OK <==>
      && caller.rol == PROFESOR && id in db.materias && db.materias[id].profesorId == caller.id
      && !CodigoInUse(db, OrKeep(codigo, db.materias[id].codigo), Some(id))
    ensures r.status == INTERNAL_ERROR <==>
      && caller.rol == PROFESOR && id in db.materias && db.materias[id].profesorId == caller.id
      && CodigoInUse(db, OrKeep(codigo, db.materias[id].codigo), Some(id))
    ensures r.status != OK ==> r.db == db
    ensures r.db.materias.Keys == db.materias.Keys
    ensures r.status == OK ==>
      var m := db.materias[id];
      && r.db == db.(materias := db.materias[id := r.db.materias[id]])
      && r.db.materias[id].nombre == (if Truthy(nombre) then nombre.value else m.nombre)
      && r.db.materias[id].descripcion == (if Truthy(descripcion) then descripcion else m.descripcion)
      && r.db.materias[id].codigo == (if Truthy(codigo) then codigo else m.codigo)
    ensures forall k :: k in db.materias ==> r.db.materias[k].profesorId == db.materias[k].profesorId
    ensures db.Valid() ==> r.db.Valid()
  {
    if !RolesPermitidos([PROFESOR], Some(caller)) then Outcome(FORBIDDEN, db, Message)
    else if id !in db.materias then Outcome(NOT_FOUND, db, Message)
    else if db.materias[id].profesorId != caller.id then Outcome(FORBIDDEN, db, Message)
    else
      var m' := EditedMateria(db.materias[id], nombre, descripcion, codigo);
      if CodigoInUse(db, m'.codigo, Some(id)) then
        // ER_DUP_ENTRY, which this route's catch answers with 500
        Outcome(INTERNAL_ERROR, db, Message)
      else Outcome(OK, db.(materias := db.materias[id := m']), Message)
  }

  /** `DELETE /materias/:id`, for the owning teacher; a single DELETE with no
      cascade, so tasks, enrollments and submissions of the subject stay. */
  function DeleteMateria(db: Db, caller: Claims, id: int): (r: Outcome)
    ensures r.status in {OK, FORBIDDEN, NOT_FOUND}
    ensures caller.rol != PROFESOR ==> r.status == FORBIDDEN
    ensures caller.rol == PROFESOR && id !in db.materias ==> r.status == NOT_FOUND
    ensures caller.rol == PROFESOR && id in db.materias && db.materias[id].profesorId != caller.id ==> r.status == FORBIDDEN
    ensures r.status == OK <==> caller.rol == PROFESOR && id in db.materias && db.materias[id].profesorId == caller.id
    ensures r.status != OK ==> r.db == db
    ensures r.status == OK ==> r.db == db.(materias := db.materias - {id})
    ensures db.Valid() ==> r.db.Valid()
  {
    if !RolesPermitidos([PROFESOR], Some(caller)) then Outcome(FORBIDDEN, db, Message)
    else if id !in db.materias then Outcome(NOT_FOUND, db, Message)
    else if db.materias[id].profesorId != caller.id then Outcome(FORBIDDEN, db, Message)
    else Outcome(OK, db.(materias := db.materias - {id}), Message)
  }

  /** `POST /inscripciones`, for students. */
  function Enroll(db: Db, caller: Claims, materiaId: Option<int>): (r: Outcome)
    ensures r.status in {CREATED, BAD_REQUEST, FORBIDDEN, NOT_FOUND}
    ensures caller.rol != ESTUDIANTE ==> r.status == FORBIDDEN
    ensures caller.rol == ESTUDIANTE && !TruthyNum(materiaId) ==> r.status == BAD_REQUEST
    ensures caller.rol == ESTUDIANTE && TruthyNum(materiaId) && materiaId.value !in db.materias ==> r.status == NOT_FOUND
    ensures (caller.rol == ESTUDIANTE && TruthyNum(materiaId) && materiaId.value in db.materias
             && Enrolled(db, caller.id, materiaId.value)) ==> r.status == BAD_REQUEST
    ensures r.status == CREATED <==>
      && caller.rol == ESTUDIANTE && TruthyNum(materiaId) && materiaId.value in db.materias
      && !Enrolled(db, caller.id, materiaId.value)
    ensures r.status != CREATED ==> r.db == db
    ensures r.status == CREATED ==>
      r.db == db.(inscripciones := db.inscripciones + {Inscripcion(caller.id, materiaId.value)})
    ensures db.Valid() ==> r.db.Valid()
  {
    if !RolesPermitidos([ESTUDIANTE], Some(caller)) then Outcome(FORBIDDEN, db, Message)
    else if !TruthyNum(materiaId) then Outcome(BAD_REQUEST, db, Message)
    else if materiaId.value !in db.materias then Outcome(NOT_FOUND, db, Message)
    else if Enrolled(db, caller.id, materiaId.value) then
      // ER_DUP_ENTRY on the (estudiante_id, materia_id) key
      Outcome(BAD_REQUEST, db, Message)
    else Outcome(CREATED, db.(inscripciones := db.inscripciones + {Inscripcion(caller.id, materiaId.value)}), Message)
  }

  /** `DELETE /inscripciones/:materia_id`, for students; succeeds whether or
      not the pair was there. */
  function Unenroll(db: Db, caller: Claims, materiaId: int): (r: Outcome)
    ensures r.status in {OK, FORBIDDEN}
    ensures r.status == OK <==> caller.rol == ESTUDIANTE
    ensures r.status != OK ==> r.db == db
    ensures r.status == OK ==>
      r.db == db.(inscripciones := db.inscripciones - {Inscripcion(caller.id, materiaId)})
    ensures !Enrolled(r.db, caller.id, materiaId) || r.status == FORBIDDEN
    ensures db.Valid() ==> r.db.Valid()
  {
    if !RolesPermitidos([ESTUDIANTE], Some(caller)) then Outcome(FORBIDDEN, db, Message)
    else Outcome(OK, db.(inscripciones := db.inscripciones - {Inscripcion(caller.id, materiaId)}), Message)
  }

  /** `GET /mi/materias`: enrolled subjects for a student, owned subjects for
      a teacher, 403 for any other role. */
  function MyMaterias(db: Db, caller: Claims): (r: View<map<int, Materia>>)
    ensures r.status in {OK, FORBIDDEN}
    ensures r.status == OK <==> caller.rol == ESTUDIANTE || caller.rol == PROFESOR
    ensures r.status == FORBIDDEN ==> r.rows == map[]
    ensures forall m :: m in r.rows ==> m in db.materias && r.rows[m] == db.materias[m]
    ensures caller.rol == ESTUDIANTE ==> forall m ::
      m in r.rows <==> m in db.materias && Enrolled(db, caller.id, m) && db.materias[m].profesorId in db.usuarios
    ensures caller.rol == PROFESOR ==> forall m ::
      m in r.rows <==> m in db.materias && db.materias[m].profesorId == caller.id && caller.id in db.usuarios
  {
    if caller.rol == ESTUDIANTE then
      View(OK, map m | m in db.materias && Enrolled(db, caller.id, m) && db.materias[m].profesorId in db.usuarios
                 :: db.materias[m])
    else if caller.rol == PROFESOR then
      View(OK, map m | m in db.materias && db.materias[m].profesorId == caller.id && db.materias[m].profesorId in db.usuarios
                 :: db.materias[m])
    else View(FORBIDDEN, map[])
  }

  /** Leaving a subject is idempotent: a second identical request answers the
      same and changes nothing more. */
  lemma UnenrollIdempotent(db: Db, caller: Claims, materiaId: int)
    ensures var once := Unenroll(db, caller, materiaId);
      Unenroll(once.db, caller, materiaId) == once
  {
  }

  /** Enrolling twice in the same subject is refused the second time, with the
      enrollments as the first request left them. */
  lemma EnrollTwice(db: Db, caller: Claims, materiaId: Option<int>)
    requires Enroll(db, caller, materiaId).status == CREATED
    ensures var once := Enroll(db, caller, materiaId);
      Enroll(once.db, caller, materiaId) == Outcome(BAD_REQUEST, once.db, Message)
  {
  }

  /** A successful enrollment shows up in the student's `GET /mi/materias`
      (when the subject's teacher row exists), and leaving removes it. */
  lemma EnrollShowsInMyMaterias(db: Db, caller: Claims, m: int)
    requires Enroll(db, caller, Some(m)).status == CREATED
    requires db.materias[m].profesorId in db.usuarios
    ensures var enrolled := Enroll(db, caller, Some(m)).db;
      && m in MyMaterias(enrolled, caller).rows
      && m !in MyMaterias(Unenroll(enrolled, caller, m).db, caller).rows
  {
  }
}
