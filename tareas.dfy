/** The task routes: `POST /tareas`, `GET /materias/:id/tareas`,
    `GET /tareas/:id`, `PUT /tareas/:id` and `DELETE /tareas/:id`. */
module Tareas {
  import opened Values
  import opened Schema
  import opened Gates
  import Materias

  /** The task row `POST /tareas` inserts. */
  function NewTarea(materiaId: int, titulo: Field, descripcion: Field, fechaEntrega: Field, archivoUrl: Field): Tarea
    requires Truthy(titulo)
  {
    Tarea(materiaId, titulo.value, OrNull(descripcion), OrNull(fechaEntrega), OrNull(archivoUrl))
  }

  /** `POST /tareas`, for the teacher who owns the subject; 404 is decided
      before 403. */
  function CreateTarea(db: Db, caller: Claims, materiaId: Option<int>, titulo: Field, descripcion: Field,
                       fechaEntrega: Field, archivoUrl: Field): (r: Outcome)
    ensures r.status in {CREATED, BAD_REQUEST, FORBIDDEN, NOT_FOUND}
    ensures caller.rol != PROFESOR ==> r.status == FORBIDDEN
    ensures caller.rol == PROFESOR && (!TruthyNum(materiaId) || !Truthy(titulo)) ==> r.status == BAD_REQUEST
    ensures (caller.rol == PROFESOR && TruthyNum(materiaId) && Truthy(titulo)
             && materiaId.value !in db.materias) ==> r.status == NOT_FOUND
    ensures (caller.rol == PROFESOR && TruthyNum(materiaId) && Truthy(titulo) && materiaId.value in db.materias
             && db.materias[materiaId.value].profesorId != caller.id) ==> r.status == FORBIDDEN
    ensures r.status == CREATED <==>
      && caller.rol == PROFESOR && TruthyNum(materiaId) && Truthy(titulo)
      && materiaId.value in db.materias && db.materias[materiaId.value].profesorId == caller.id
    ensures r.status != CREATED ==> r.db == db
    ensures r.status == CREATED ==>
      var id := db.next.tarea;
      && r.db == db.(tareas := db.tareas[id := NewTarea(materiaId.value, titulo, descripcion, fechaEntrega, archivoUrl)],
                     next := db.next.(tarea := id + 1))
      && TareaProfesor(r.db, id) == Some(caller.id)
      && r.body == NewId(id)
    ensures db.Valid() ==> r.db.Valid()
  {
    if !RolesPermitidos([PROFESOR], Some(caller)) then Outcome(FORBIDDEN, db, Message)
    else if !TruthyNum(materiaId) || !Truthy(titulo) then Outcome(BAD_REQUEST, db, Message)
    else if materiaId.value !in db.materias then Outcome(NOT_FOUND, db, Message)
    else if db.materias[materiaId.value].profesorId != caller.id then Outcome(FORBIDDEN, db, Message)
    else
      var id := db.next.tarea;
      Outcome(CREATED, db.(tareas := db.tareas[id := NewTarea(materiaId.value, titulo, descripcion, fechaEntrega, archivoUrl)],
                           next := db.next.(tarea := id + 1)), NewId(id))
  }

  /** `GET /materias/:id/tareas`: the subject's tasks, for any authenticated
      caller (no ownership or enrollment check is made). */
  function ListTareas(db: Db, materiaId: int): (r: View<map<int, Tarea>>)
    ensures r.status == OK
    ensures forall t :: t in r.rows <==> t in db.tareas && db.tareas[t].materiaId == materiaId
    ensures forall t :: t in r.rows ==> r.rows[t] == db.tareas[t]
  {
    View(OK, map t | t in db.tareas && db.tareas[t].materiaId == materiaId :: db.tareas[t])
  }

  /** Whether `GET /tareas/:id` finds the task for the caller: through the
      subject's `profesor_id` for a teacher, through an enrollment for a student. */
  predicate SeesTarea(db: Db, caller: Claims, id: int) {
    && id in db.tareas && db.tareas[id].materiaId in db.materias
    && (if caller.rol == PROFESOR then db.materias[db.tareas[id].materiaId].profesorId == caller.id
        else Enrolled(db, caller.id, db.tareas[id].materiaId))
  }

  /** `GET /tareas/:id`: the task, to its subject's teacher or to a student
      enrolled in its subject; otherwise 404. A caller with any other role
      sends an empty query, which the driver rejects (500). */
  function GetTarea(db: Db, caller: Claims, id: int): (r: View<Option<Tarea>>)
    ensures r.status in {OK, NOT_FOUND, INTERNAL_ERROR}
    ensures r.status == INTERNAL_ERROR <==> caller.rol != PROFESOR && caller.rol != ESTUDIANTE
    ensures r.rows.Some? <==> r.status == OK
    ensures r.status == OK ==> id in db.tareas && r.rows == Some(db.tareas[id])
    ensures caller.rol == PROFESOR ==> (r.status == OK <==> TareaProfesor(db, id) == Some(caller.id))
    ensures caller.rol == ESTUDIANTE ==>
      (r.status == OK <==> id in db.tareas && db.tareas[id].materiaId in db.materias
                           && Enrolled(db, caller.id, db.tareas[id].materiaId))
  {
    if caller.rol != PROFESOR && caller.rol != ESTUDIANTE then View(INTERNAL_ERROR, None)
    else if SeesTarea(db, caller, id) then View(OK, Some(db.tareas[id]))
    else View(NOT_FOUND, None)
  }

  /** The row `PUT /tareas/:id` writes: each falsy field keeps its old value,
      the subject is carried over. */
  function EditedTarea(t: Tarea, titulo: Field, descripcion: Field, fechaEntrega: Field, archivoUrl: Field): Tarea {
    Tarea(t.materiaId, OrElse(titulo, t.titulo), OrKeep(descripcion, t.descripcion),
          OrKeep(fechaEntrega, t.fechaEntrega), OrKeep(archivoUrl, t.archivoUrl))
  }

  /** `PUT /tareas/:id`, for the teacher who owns the task's subject; 404
      (no task, or its subject is gone) is decided before 403. */
  function UpdateTarea(db: Db, caller: Claims, id: int, titulo: Field, descripcion: Field,
                       fechaEntrega: Field, archivoUrl: Field): (r: Outcome)
    ensures r.status in {OK, FORBIDDEN, NOT_FOUND}
    ensures caller.rol != PROFESOR ==> r.status == FORBIDDEN
    ensures caller.rol == PROFESOR && TareaProfesor(db, id).None? ==> r.status == NOT_FOUND
    ensures caller.rol == PROFESOR && TareaProfesor(db, id).Some? && TareaProfesor(db, id) != Some(caller.id)
      ==> r.status == FORBIDDEN
    ensures r.status == OK <==> caller.rol == PROFESOR && TareaProfesor(db, id) == Some(caller.id)
    ensures r.status != OK ==> r.db == db
    ensures r.db.tareas.Keys == db.tareas.Keys
    ensures r.status == OK ==>
      var t := db.tareas[id];
      var t' := r.db.tareas[id];
      && r.db == db.(tareas := db.tareas[id := t'])
      && t'.materiaId == t.materiaId
      && t'.titulo == (if Truthy(titulo) then titulo.value else t.titulo)
      && t'.descripcion == (if Truthy(descripcion) then descripcion else t.descripcion)
      && t'.fechaEntrega == (if Truthy(fechaEntrega) then fechaEntrega else t.fechaEntrega)
      && t'.archivoUrl == (if Truthy(archivoUrl) then archivoUrl else t.archivoUrl)
    ensures db.Valid() ==> r.db.Valid()
  {
    if !RolesPermitidos([PROFESOR], Some(caller)) then Outcome(FORBIDDEN, db, Message)
    else if TareaProfesor(db, id).None? then Outcome(NOT_FOUND, db, Message)
    else if TareaProfesor(db, id) != Some(caller.id) then Outcome(FORBIDDEN, db, Message)
    else Outcome(OK, db.(tareas := db.tareas[id := EditedTarea(db.tareas[id], titulo, descripcion, fechaEntrega, archivoUrl)]), Message)
  }

  /** `DELETE /tareas/:id`, for the teacher who owns the task's subject; a
      single DELETE with no cascade. */
  function DeleteTarea(db: Db, caller: Claims, id: int): (r: Outcome)
    ensures r.status in {OK, FORBIDDEN, NOT_FOUND}
    ensures caller.rol != PROFESOR ==> r.status == FORBIDDEN
    ensures caller.rol == PROFESOR && TareaProfesor(db, id).None? ==> r.status == NOT_FOUND
    ensures caller.rol == PROFESOR && TareaProfesor(db, id).Some? && TareaProfesor(db, id) != Some(caller.id)
      ==> r.status == FORBIDDEN
    ensures r.status == OK <==> caller.rol == PROFESOR && TareaProfesor(db, id) == Some(caller.id)
    ensures r.status != OK ==> r.db == db
    ensures r.status == OK ==> r.db == db.(tareas := db.tareas - {id})
    ensures db.Valid() ==> r.db.Valid()
  {
    if !RolesPermitidos([PROFESOR], Some(caller)) then Outcome(FORBIDDEN, db, Message)
    else if TareaProfesor(db, id).None? then Outcome(NOT_FOUND, db, Message)
    else if TareaProfesor(db, id) != Some(caller.id) then Outcome(FORBIDDEN, db, Message)
    else Outcome(OK, db.(tareas := db.tareas - {id}), Message)
  }

  /** A student who leaves a subject can no longer open its tasks, while the
      subject's task list still shows them to that student. */
  lemma UnenrolledStudentLosesTask(db: Db, caller: Claims, id: int)
    requires caller.rol == ESTUDIANTE && id in db.tareas
    ensures var after := Materias.Unenroll(db, caller, db.tareas[id].materiaId).db;
      && GetTarea(after, caller, id) == View(NOT_FOUND, None)
      && id in ListTareas(after, db.tareas[id].materiaId).rows
  {
  }
}
