/** The submission routes: `POST /entregas`, `GET /entregas/:id`,
    `GET /tareas/:id/entregas`, `PUT /entregas/:id/calificar` and
    `GET /mi/entregas`. */
module Entregas {
  import opened Values
  import opened Schema
  import opened Gates

  /** The row `POST /entregas` inserts: ungraded, without a teacher's comment. */
  function NewEntrega(caller: Claims, tareaId: int, contenido: Field, archivoUrl: Field): Entrega {
    Entrega(tareaId, caller.id, OrNull(contenido), OrNull(archivoUrl), None, None)
  }

  /** `POST /entregas`, for students. No enrollment in the task's subject is
      required. A second submission for the same task hits the UNIQUE key on
      (tarea_id, estudiante_id) and is answered with 400. */
  function CreateEntrega(db: Db, caller: Claims, tareaId: Option<int>, contenido: Field, archivoUrl: Field): (r: Outcome)
    ensures r.status in {CREATED, BAD_REQUEST, FORBIDDEN, NOT_FOUND}
    ensures caller.rol != ESTUDIANTE ==> r.status == FORBIDDEN
    ensures caller.rol == ESTUDIANTE && !TruthyNum(tareaId) ==> r.status == BAD_REQUEST
    ensures caller.rol == ESTUDIANTE && TruthyNum(tareaId) && tareaId.value !in db.tareas ==> r.status == NOT_FOUND
    ensures (caller.rol == ESTUDIANTE && TruthyNum(tareaId) && tareaId.value in db.tareas
             && EntregaExists(db, tareaId.value, caller.id)) ==> r.status == BAD_REQUEST
    ensures r.status == CREATED <==>
      && caller.rol == ESTUDIANTE && TruthyNum(tareaId) && tareaId.value in db.tareas
      && !EntregaExists(db, tareaId.value, caller.id)
    ensures r.status != CREATED ==> r.db == db
    ensures r.status == CREATED ==>
      var id := db.next.entrega;
      && r.db == db.(entregas := db.entregas[id := NewEntrega(caller, tareaId.value, contenido, archivoUrl)],
                     next := db.next.(entrega := id + 1))
      && EntregaExists(r.db, tareaId.value, caller.id)
      && r.body == NewId(id)
    ensures db.Valid() ==> r.db.Valid()
  {
    if !RolesPermitidos([ESTUDIANTE], Some(caller)) then Outcome(FORBIDDEN, db, Message)
    else if !TruthyNum(tareaId) then Outcome(BAD_REQUEST, db, Message)
    else if tareaId.value !in db.tareas then Outcome(NOT_FOUND, db, Message)
    else if EntregaExists(db, tareaId.value, caller.id) then
      // ER_DUP_ENTRY on the (tarea_id, estudiante_id) key
      Outcome(BAD_REQUEST, db, Message)
    else
      var id := db.next.entrega;
      var e := NewEntrega(caller, tareaId.value, contenido, archivoUrl);
      var db' := db.(entregas := db.entregas[id := e], next := db.next.(entrega := id + 1));
      assert id in db'.entregas && db'.entregas[id] == e;
      Outcome(CREATED, db', NewId(id))
  }

  /** Whether `GET /entregas/:id` finds the submission for the caller. Both
      queries join the task, its subject and the student's user row; a student
      must be the submitter, a teacher the subject's owner. */
  predicate SeesEntrega(db: Db, caller: Claims, id: int) {
    && id in db.entregas
    && TareaProfesor(db, db.entregas[id].tareaId).Some?
    && db.entregas[id].estudianteId in db.usuarios
    && (if caller.rol == ESTUDIANTE then db.entregas[id].estudianteId == caller.id
        else TareaProfesor(db, db.entregas[id].tareaId) == Some(caller.id))
  }

  /** `GET /entregas/:id`: 403 for a role other than student or teacher,
      404 for a submission the caller may not see. */
  function GetEntrega(db: Db, caller: Claims, id: int): (r: View<Option<Entrega>>)
    ensures r.status in {OK, FORBIDDEN, NOT_FOUND}
    ensures r.status == FORBIDDEN <==> caller.rol != ESTUDIANTE && caller.rol != PROFESOR
    ensures r.rows.Some? <==> r.status == OK
    ensures r.status == OK ==> id in db.entregas && r.rows == Some(db.entregas[id])
    ensures caller.rol == ESTUDIANTE ==>
      (r.status == OK <==> id in db.entregas && db.entregas[id].estudianteId == caller.id
                           && TareaProfesor(db, db.entregas[id].tareaId).Some? && caller.id in db.usuarios)
    ensures caller.rol == PROFESOR ==>
      (r.status == OK <==> EntregaProfesor(db, id) == Some(caller.id) && db.entregas[id].estudianteId in db.usuarios)
  {
    if caller.rol != ESTUDIANTE && caller.rol != PROFESOR then View(FORBIDDEN, None)
    else if SeesEntrega(db, caller, id) then View(OK, Some(db.entregas[id]))
    else View(NOT_FOUND, None)
  }

  /** `GET /tareas/:id/entregas`, for the teacher who owns the task's subject:
      the task's submissions whose student row exists. */
  function EntregasDeTarea(db: Db, caller: Claims, tareaId: int): (r: View<map<int, Entrega>>)
    ensures r.status in {OK, FORBIDDEN, NOT_FOUND}
    ensures caller.rol != PROFESOR ==> r.status == FORBIDDEN
    ensures r.status == OK <==> caller.rol == PROFESOR && TareaProfesor(db, tareaId) == Some(caller.id)
    ensures r.status == NOT_FOUND <==> caller.rol == PROFESOR && TareaProfesor(db, tareaId) != Some(caller.id)
    ensures r.status != OK ==> r.rows == map[]
    ensures r.status == OK ==> forall e ::
      e in r.rows <==> e in db.entregas && db.entregas[e].tareaId == tareaId && db.entregas[e].estudianteId in db.usuarios
    ensures forall e :: e in r.rows ==> e in db.entregas && r.rows[e] == db.entregas[e]
  {
    if !RolesPermitidos([PROFESOR], Some(caller)) then View(FORBIDDEN, map[])
    else if TareaProfesor(db, tareaId) != Some(caller.id) then View(NOT_FOUND, map[])
    else View(OK, map e | e in db.entregas && db.entregas[e].tareaId == tareaId
                          && db.entregas[e].estudianteId in db.usuarios :: db.entregas[e])
  }

  /** The submission after grading: a falsy grade (absent or 0) is written as
      NULL, and so is a falsy comment. */
  function Graded(e: Entrega, calificacion: Option<int>, comentario: Field): Entrega {
    e.(calificacion := OrNullNum(calificacion), comentario := OrNull(comentario))
  }

  /** `PUT /entregas/:id/calificar`, for the teacher who owns the subject of
      the submission's task; 404 is decided before 403. */
  function Calificar(db: Db, caller: Claims, id: int, calificacion: Option<int>, comentario: Field): (r: Outcome)
    ensures r.status in {OK, FORBIDDEN, NOT_FOUND}
    ensures caller.rol != PROFESOR ==> r.status == FORBIDDEN
    ensures caller.rol == PROFESOR && EntregaProfesor(db, id).None? ==> r.status == NOT_FOUND
    ensures caller.rol == PROFESOR && EntregaProfesor(db, id).Some? && EntregaProfesor(db, id) != Some(caller.id)
      ==> r.status == FORBIDDEN
    ensures r.status == OK <==> caller.rol == PROFESOR && EntregaProfesor(db, id) == Some(caller.id)
    ensures r.status != OK ==> r.db == db
    ensures r.db.entregas.Keys == db.entregas.Keys
    ensures r.status == OK ==>
      var e := db.entregas[id];
      var e' := r.db.entregas[id];
      && r.db == db.(entregas := db.entregas[id := e'])
      && e'.tareaId == e.tareaId && e'.estudianteId == e.estudianteId
      && e'.contenido == e.contenido && e'.archivoUrl == e.archivoUrl
      && e'.calificacion == (if TruthyNum(calificacion) then calificacion else None)
      && e'.comentario == (if Truthy(comentario) then comentario else None)
    ensures db.Valid() ==> r.db.Valid()
  {
    if !RolesPermitidos([PROFESOR], Some(caller)) then Outcome(FORBIDDEN, db, Message)
    else if EntregaProfesor(db, id).None? then Outcome(NOT_FOUND, db, Message)
    else if EntregaProfesor(db, id) != Some(caller.id) then Outcome(FORBIDDEN, db, Message)
    else Outcome(OK, db.(entregas := db.entregas[id := Graded(db.entregas[id], calificacion, comentario)]), Message)
  }

  /** `GET /mi/entregas`: a student's own submissions (whose task and subject
      exist); for a teacher, the ungraded submissions in the subjects they own
      (whose student row exists); 403 for any other role. */
  function MyEntregas(db: Db, caller: Claims): (r: View<map<int, Entrega>>)
    ensures r.status in {OK, FORBIDDEN}
    ensures r.status == OK <==> caller.rol == ESTUDIANTE || caller.rol == PROFESOR
    ensures r.status == FORBIDDEN ==> r.rows == map[]
    ensures forall e :: e in r.rows ==> e in db.entregas && r.rows[e] == db.entregas[e]
    ensures caller.rol == ESTUDIANTE ==> forall e ::
      e in r.rows <==> e in db.entregas && db.entregas[e].estudianteId == caller.id
                       && TareaProfesor(db, db.entregas[e].tareaId).Some?
    ensures caller.rol == PROFESOR ==> forall e ::
      e in r.rows <==> e in db.entregas && EntregaProfesor(db, e) == Some(caller.id)
                       && db.entregas[e].calificacion.None? && db.entregas[e].estudianteId in db.usuarios
  {
    if caller.rol == ESTUDIANTE then
      View(OK, map e | e in db.entregas && db.entregas[e].estudianteId == caller.id
                       && TareaProfesor(db, db.entregas[e].tareaId).Some? :: db.entregas[e])
    else if caller.rol == PROFESOR then
      View(OK, map e | e in db.entregas && TareaProfesor(db, db.entregas[e].tareaId) == Some(caller.id)
                       && db.entregas[e].calificacion.None? && db.entregas[e].estudianteId in db.usuarios
                       :: db.entregas[e])
    else View(FORBIDDEN, map[])
  }

  /** A second submission of the same task by the same student is refused
      with 400 and adds no row. */
  lemma SubmitTwice(db: Db, caller: Claims, tareaId: Option<int>, contenido: Field, archivoUrl: Field,
                    contenido2: Field, archivoUrl2: Field)
    requires CreateEntrega(db, caller, tareaId, contenido, archivoUrl).status == CREATED
    ensures var once := CreateEntrega(db, caller, tareaId, contenido, archivoUrl).db;
      CreateEntrega(once, caller, tareaId, contenido2, archivoUrl2) == Outcome(BAD_REQUEST, once, Message)
  {
  }

  /** Submitting does not depend on enrollment: a student enrolled in no
      subject at all can submit to any existing task. */
  lemma UnenrolledStudentCanSubmit(db: Db, caller: Claims, tareaId: int, contenido: Field, archivoUrl: Field)
    requires caller.rol == ESTUDIANTE && tareaId != 0 && tareaId in db.tareas
    requires !EntregaExists(db, tareaId, caller.id)
    requires forall m :: !Enrolled(db, caller.id, m)
    ensures CreateEntrega(db, caller, Some(tareaId), contenido, archivoUrl).status == CREATED
  {
  }

  /** Grading again overwrites: only the last grade and comment remain. */
  lemma GradingAgainOverwrites(db: Db, caller: Claims, id: int, c1: Option<int>, k1: Field, c2: Option<int>, k2: Field)
    requires Calificar(db, caller, id, c1, k1).status == OK
    ensures Calificar(Calificar(db, caller, id, c1, k1).db, caller, id, c2, k2) == Calificar(db, caller, id, c2, k2)
  {
    var once := Calificar(db, caller, id, c1, k1).db;
    assert EntregaProfesor(once, id) == EntregaProfesor(db, id);
  }

  /** A grade of 0 is stored as NULL, so the submission stays in the
      teacher's list of pending submissions; a non-zero grade removes it. */
  lemma ZeroGradeStaysPending(db: Db, caller: Claims, id: int, calificacion: Option<int>, comentario: Field)
    requires Calificar(db, caller, id, calificacion, comentario).status == OK
    requires db.entregas[id].estudianteId in db.usuarios
    ensures var after := Calificar(db, caller, id, calificacion, comentario).db;
      id in MyEntregas(after, caller).rows <==> !TruthyNum(calificacion)
  {
    var after := Calificar(db, caller, id, calificacion, comentario).db;
    assert EntregaProfesor(after, id) == EntregaProfesor(db, id);
  }

  /** What the owning teacher grades, the student who submitted reads back
      from `GET /entregas/:id` (the grade as stored, NULL for a falsy one). */
  lemma GradeVisibleToSubmitter(db: Db, teacher: Claims, student: Claims, id: int,
                                calificacion: Option<int>, comentario: Field)
    requires teacher.rol == PROFESOR && student.rol == ESTUDIANTE
    requires EntregaProfesor(db, id) == Some(teacher.id)
    requires db.entregas[id].estudianteId == student.id && student.id in db.usuarios
    ensures var graded := Calificar(db, teacher, id, calificacion, comentario);
      && graded.status == OK
      && GetEntrega(graded.db, student, id) == View(OK, Some(Graded(db.entregas[id], calificacion, comentario)))
      && GetEntrega(graded.db, student, id).rows.value.calificacion == OrNullNum(calificacion)
  {
    var graded := Calificar(db, teacher, id, calificacion, comentario);
    assert EntregaProfesor(graded.db, id) == EntregaProfesor(db, id);
  }
}
