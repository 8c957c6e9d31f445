/** The API as a whole: a request passes `auth` (except `POST /register`),
    then the route's own role gate and checks; a run is a sequence of
    requests answered one after the other. Only the routes that change the
    store appear here: the reading routes and `POST /login` leave it as it is. */
module Server {
  import opened Values
  import opened Schema
  import opened Gates
  import Accounts
  import Materias
  import Tareas
  import Entregas
  import Comentarios

  /** A mutating route with its path parameters and body fields. */
  datatype Route =
    | PostRegister(nombre: Field, email: Field, contrasena: Field, rol: Field)
    | PutUsers(userId: int, nombre: Field, email: Field)
    | PutUsersPassword(userId: int, current: Field, newPassword: Field)
    | PostMaterias(nombre: Field, descripcion: Field, codigo: Field)
    | PutMaterias(materiaId: int, nombre: Field, descripcion: Field, codigo: Field)
    | DeleteMaterias(materiaId: int)
    | PostInscripciones(materia: Option<int>)
    | DeleteInscripciones(materiaId: int)
    | PostTareas(materia: Option<int>, titulo: Field, descripcion: Field, fechaEntrega: Field, archivoUrl: Field)
    | PutTareas(tareaId: int, titulo: Field, descripcion: Field, fechaEntrega: Field, archivoUrl: Field)
    | DeleteTareas(tareaId: int)
    | PostEntregas(tarea: Option<int>, contenido: Field, archivoUrl: Field)
    | PutCalificar(entregaId: int, calificacion: Option<int>, comentario: Field)
    | PostComentarios(tareaId: int, texto: Field)
    | DeleteComentarios(comentarioId: int)

  /** A request: the `Authorization` header and the route. */
  datatype Request = Request(header: Field, route: Route)

  /** The handler of an authenticated route, for the caller `auth` admitted. */
  function Handle(db: Db, bcrypt: Accounts.Bcrypt, caller: Claims, route: Route): (r: Outcome)
    requires !route.PostRegister?
    ensures r.status >= 400 ==> r.db == db
    ensures db.Valid() ==> r.db.Valid()
  {
    match route
    case PutUsers(id, nombre, email) => Accounts.UpdateUser(db, caller, id, nombre, email)
    case PutUsersPassword(id, current, newPassword) => Accounts.ChangePassword(db, bcrypt, caller, id, current, newPassword)
    case PostMaterias(nombre, descripcion, codigo) => Materias.CreateMateria(db, caller, nombre, descripcion, codigo)
    case PutMaterias(id, nombre, descripcion, codigo) => Materias.UpdateMateria(db, caller, id, nombre, descripcion, codigo)
    case DeleteMaterias(id) => Materias.DeleteMateria(db, caller, id)
    case PostInscripciones(materia) => Materias.Enroll(db, caller, materia)
    case DeleteInscripciones(materiaId) => Materias.Unenroll(db, caller, materiaId)
    case PostTareas(materia, titulo, descripcion, fechaEntrega, archivoUrl) =>
      Tareas.CreateTarea(db, caller, materia, titulo, descripcion, fechaEntrega, archivoUrl)
    case PutTareas(id, titulo, descripcion, fechaEntrega, archivoUrl) =>
      Tareas.UpdateTarea(db, caller, id, titulo, descripcion, fechaEntrega, archivoUrl)
    case DeleteTareas(id) => Tareas.DeleteTarea(db, caller, id)
    case PostEntregas(tarea, contenido, archivoUrl) => Entregas.CreateEntrega(db, caller, tarea, contenido, archivoUrl)
    case PutCalificar(id, calificacion, comentario) => Entregas.Calificar(db, caller, id, calificacion, comentario)
    case PostComentarios(tareaId, texto) => Comentarios.CreateComentario(db, caller, tareaId, texto)
    case DeleteComentarios(id) => Comentarios.DeleteComentario(db, caller, id)
  }

  /** One request, answered: 401 from `auth` before any handler runs, except
      for `POST /register`, which needs no token. */
  function Serve(db: Db, bcrypt: Accounts.Bcrypt, verify: string -> Option<Claims>, req: Request): (r: Outcome)
    ensures !req.route.PostRegister? && Auth(req.header, verify).Unauthorized? ==> r == Outcome(UNAUTHORIZED, db, Message)
    ensures r.status >= 400 ==> r.db == db
    ensures db.Valid() ==> r.db.Valid()
  {
    match req.route
    case PostRegister(nombre, email, contrasena, rol) => Accounts.Register(db, bcrypt, nombre, email, contrasena, rol)
    case _ =>
      match Auth(req.header, verify)
      case Unauthorized => Outcome(UNAUTHORIZED, db, Message)
      case Authenticated(user) => Handle(db, bcrypt, user, req.route)
  }

  /** The store after answering the requests in order. */
  function Run(db: Db, bcrypt: Accounts.Bcrypt, verify: string -> Option<Claims>, reqs: seq<Request>): Db
    decreases |reqs|
  {
    if reqs == [] then db else Run(Serve(db, bcrypt, verify, reqs[0]).db, bcrypt, verify, reqs[1..])
  }

  /** The routes mounted behind `rolesPermitidos(["profesor"])`. */
  predicate TeacherOnly(route: Route) {
    route.PostMaterias? || route.PutMaterias? || route.DeleteMaterias?
    || route.PostTareas? || route.PutTareas? || route.DeleteTareas? || route.PutCalificar?
  }

  /** The routes mounted behind `rolesPermitidos(["estudiante"])`. */
  predicate StudentOnly(route: Route) {
    route.PostInscripciones? || route.DeleteInscripciones? || route.PostEntregas?
  }

  /** The role gate answers 403 before the route looks at anything else, and
      the store stays as it was. */
  lemma RoleGateRefuses(db: Db, bcrypt: Accounts.Bcrypt, caller: Claims, route: Route)
    requires (TeacherOnly(route) && caller.rol != PROFESOR) || (StudentOnly(route) && caller.rol != ESTUDIANTE)
    ensures Handle(db, bcrypt, caller, route) == Outcome(FORBIDDEN, db, Message)
  {
  }

  /** Between two stores: no id counter of the model went back; every row of
      `after` whose id is below its table's old counter was already in
      `before` (no id is handed out twice); and users, subjects and tasks keep
      their role, their teacher and their subject. */
  ghost predicate Kept(before: Db, after: Db) {
    && before.next.usuario <= after.next.usuario
    && before.next.materia <= after.next.materia
    && before.next.tarea <= after.next.tarea
    && (forall id :: id in after.usuarios && id < before.next.usuario ==>
          id in before.usuarios && after.usuarios[id].rol == before.usuarios[id].rol)
    && (forall id :: id in after.materias && id < before.next.materia ==>
          id in before.materias && after.materias[id].profesorId == before.materias[id].profesorId)
    && (forall id :: id in after.tareas && id < before.next.tarea ==>
          id in before.tareas && after.tareas[id].materiaId == before.tareas[id].materiaId)
    && before.next.entrega <= after.next.entrega
    && before.next.comentario <= after.next.comentario
    && (forall id :: id in after.entregas && id < before.next.entrega ==> id in before.entregas)
    && (forall id :: id in after.comentarios && id < before.next.comentario ==> id in before.comentarios)
  }

  lemma KeptTransitive(a: Db, b: Db, c: Db)
    requires Kept(a, b) && Kept(b, c)
    ensures Kept(a, c)
  {
  }

  lemma RegisterKeeps(db: Db, bcrypt: Accounts.Bcrypt, nombre: Field, email: Field, contrasena: Field, rol: Field)
    ensures Kept(db, Accounts.Register(db, bcrypt, nombre, email, contrasena, rol).db)
  {
  }

  lemma UserRoutesKeep(db: Db, bcrypt: Accounts.Bcrypt, caller: Claims, route: Route)
    requires route.PutUsers? || route.PutUsersPassword?
    ensures Kept(db, Handle(db, bcrypt, caller, route).db)
  {
  }

  lemma MateriaRoutesKeep(db: Db, bcrypt: Accounts.Bcrypt, caller: Claims, route: Route)
    requires route.PostMaterias? || route.DeleteMaterias?
    ensures Kept(db, Handle(db, bcrypt, caller, route).db)
  {
  }

  lemma UpdateMateriaKeeps(db: Db, bcrypt: Accounts.Bcrypt, caller: Claims, route: Route)
    requires route.PutMaterias?
    ensures Kept(db, Handle(db, bcrypt, caller, route).db)
  {
  }

  lemma EnrollmentRoutesKeep(db: Db, bcrypt: Accounts.Bcrypt, caller: Claims, route: Route)
    requires route.PostInscripciones? || route.DeleteInscripciones?
    ensures Kept(db, Handle(db, bcrypt, caller, route).db)
  {
  }

  lemma TareaRoutesKeep(db: Db, bcrypt: Accounts.Bcrypt, caller: Claims, route: Route)
    requires route.PostTareas? || route.PutTareas? || route.DeleteTareas?
    ensures Kept(db, Handle(db, bcrypt, caller, route).db)
  {
    var r := Handle(db, bcrypt, caller, route);
    if route.PutTareas? && r.status == OK {
      assert r.db.tareas[route.tareaId].materiaId == db.tareas[route.tareaId].materiaId;
    }
  }

  lemma EntregaRoutesKeep(db: Db, bcrypt: Accounts.Bcrypt, caller: Claims, route: Route)
    requires route.PostEntregas? || route.PutCalificar?
    ensures Kept(db, Handle(db, bcrypt, caller, route).db)
  {
  }

  lemma ComentarioRoutesKeep(db: Db, bcrypt: Accounts.Bcrypt, caller: Claims, route: Route)
    requires route.PostComentarios? || route.DeleteComentarios?
    ensures Kept(db, Handle(db, bcrypt, caller, route).db)
  {
  }

  /** Every authenticated route, whoever the caller, keeps what `Kept` names. */
  lemma HandleKeeps(db: Db, bcrypt: Accounts.Bcrypt, caller: Claims, route: Route)
    requires !route.PostRegister?
    ensures Kept(db, Handle(db, bcrypt, caller, route).db)
  {
    if route.PutUsers? || route.PutUsersPassword? {
      UserRoutesKeep(db, bcrypt, caller, route);
    } else if route.PostMaterias? || route.DeleteMaterias? {
      MateriaRoutesKeep(db, bcrypt, caller, route);
    } else if route.PutMaterias? {
      UpdateMateriaKeeps(db, bcrypt, caller, route);
    } else if route.PostInscripciones? || route.DeleteInscripciones? {
      EnrollmentRoutesKeep(db, bcrypt, caller, route);
    } else if route.PostTareas? || route.PutTareas? || route.DeleteTareas? {
      TareaRoutesKeep(db, bcrypt, caller, route);
    } else if route.PostEntregas? || route.PutCalificar? {
      EntregaRoutesKeep(db, bcrypt, caller, route);
    } else {
      ComentarioRoutesKeep(db, bcrypt, caller, route);
    }
  }

  /** Every request, registration and a refusal by `auth` included, keeps
      what `Kept` names. */
  lemma ServeKeeps(db: Db, bcrypt: Accounts.Bcrypt, verify: string -> Option<Claims>, req: Request)
    ensures Kept(db, Serve(db, bcrypt, verify, req).db)
  {
    match req.route
    case PostRegister(nombre, email, contrasena, rol) =>
      RegisterKeeps(db, bcrypt, nombre, email, contrasena, rol);
    case _ =>
      match Auth(req.header, verify)
      case Unauthorized =>
      case Authenticated(user) => HandleKeeps(db, bcrypt, user, req.route);
  }

  /** Any run of requests from a valid store ends in a valid store: ids stay
      below their counters, e-mails stay non-empty and unique, subject codes
      stay unique, and no student has two submissions for one task. */
  lemma {:induction false} RunPreservesValid(db: Db, bcrypt: Accounts.Bcrypt, verify: string -> Option<Claims>,
                                             reqs: seq<Request>)
    requires db.Valid()
    ensures Run(db, bcrypt, verify, reqs).Valid()
    decreases |reqs|
  {
    if reqs != [] {
      RunPreservesValid(Serve(db, bcrypt, verify, reqs[0]).db, bcrypt, verify, reqs[1..]);
    }
  }

  /** Any run keeps the columns that `Kept` names. */
  lemma {:induction false} RunKeeps(db: Db, bcrypt: Accounts.Bcrypt, verify: string -> Option<Claims>, reqs: seq<Request>)
    ensures Kept(db, Run(db, bcrypt, verify, reqs))
    decreases |reqs|
  {
    if reqs == [] {
    } else {
      var db1 := Serve(db, bcrypt, verify, reqs[0]).db;
      ServeKeeps(db, bcrypt, verify, reqs[0]);
      RunKeeps(db1, bcrypt, verify, reqs[1..]);
      KeptTransitive(db, db1, Run(db1, bcrypt, verify, reqs[1..]));
    }
  }

  /** A subject's teacher never changes: whatever requests arrive, a subject
      present before and after has the same `profesor_id`; likewise a user's
      role never changes. Validity is what puts every existing id below its
      table's counter, which is where `Kept` speaks. */
  lemma OwnerNeverChanges(db: Db, bcrypt: Accounts.Bcrypt, verify: string -> Option<Claims>, reqs: seq<Request>, m: int, u: int)
    requires db.Valid()
    ensures var after := Run(db, bcrypt, verify, reqs);
      && (m in db.materias && m in after.materias ==> after.materias[m].profesorId == db.materias[m].profesorId)
      && (u in db.usuarios && u in after.usuarios ==> after.usuarios[u].rol == db.usuarios[u].rol)
  {
    var after := Run(db, bcrypt, verify, reqs);
    RunKeeps(db, bcrypt, verify, reqs);
    assert m in db.materias ==> m < db.next.materia;
    assert u in db.usuarios ==> u < db.next.usuario;
  }

  /** The accounts of the end-to-end course below. */
  const TEACHER: Claims := Claims(1, "T", "t@example.com", PROFESOR)
  const STUDENT: Claims := Claims(2, "S", "s@example.com", ESTUDIANTE)

  /** The teacher's part: register, create subject 1, create task 1 in it. */
  function TeacherSetup(bcrypt: Accounts.Bcrypt): seq<Outcome> {
    var r1 := Accounts.Register(Empty, bcrypt, Some("T"), Some("t@example.com"), Some("secret1"), Some(PROFESOR));
    var r2 := Materias.CreateMateria(r1.db, TEACHER, Some("M"), None, Some("M-101"));
    var r3 := Tareas.CreateTarea(r2.db, TEACHER, Some(1), Some("A"), None, None, None);
    [r1, r2, r3]
  }

  /** The student's part: register, enroll in subject 1, submit to task 1. */
  function StudentTurn(db: Db, bcrypt: Accounts.Bcrypt): seq<Outcome> {
    var r4 := Accounts.Register(db, bcrypt, Some("S"), Some("s@example.com"), Some("secret2"), Some(ESTUDIANTE));
    var r5 := Materias.Enroll(r4.db, STUDENT, Some(1));
    var r6 := Entregas.CreateEntrega(r5.db, STUDENT, Some(1), Some("answer"), None);
    [r4, r5, r6]
  }

  lemma TeacherSetupSucceeds(bcrypt: Accounts.Bcrypt)
    ensures var rs := TeacherSetup(bcrypt);
      && rs[0].status == CREATED && rs[0].body == Session(TEACHER)
      && rs[1].status == CREATED && rs[1].body == NewId(1)
      && rs[2].status == CREATED && rs[2].body == NewId(1)
      && rs[2].db.usuarios.Keys == {1} && rs[2].db.entregas == map[]
      && rs[2].db.next.usuario == 2 && rs[2].db.next.entrega == 1
      && 1 in rs[2].db.materias && 1 in rs[2].db.tareas
      && TareaProfesor(rs[2].db, 1) == Some(TEACHER.id)
  {
    var r1 := Accounts.Register(Empty, bcrypt, Some("T"), Some("t@example.com"), Some("secret1"), Some(PROFESOR));
    assert r1.status == CREATED;
    var r2 := Materias.CreateMateria(r1.db, TEACHER, Some("M"), None, Some("M-101"));
    assert r2.status == CREATED;
  }

  lemma StudentTurnSucceeds(db: Db, bcrypt: Accounts.Bcrypt)
    requires db.usuarios.Keys == {1} && db.entregas == map[]
    requires db.next.usuario == 2 && db.next.entrega == 1
    requires 1 in db.materias && 1 in db.tareas && !Enrolled(db, STUDENT.id, 1)
    requires db.usuarios[1].email != "s@example.com"
    ensures var rs := StudentTurn(db, bcrypt);
      && rs[0].status == CREATED && rs[0].body == Session(STUDENT)
      && rs[1].status == CREATED
      && rs[2].status == CREATED && rs[2].body == NewId(1)
      && rs[2].db.entregas.Keys == {1} && rs[2].db.entregas[1].estudianteId == STUDENT.id
      && rs[2].db.entregas[1].tareaId == 1
      && rs[2].db.tareas == db.tareas && rs[2].db.materias == db.materias
      && 1 in rs[2].db.usuarios && STUDENT.id in rs[2].db.usuarios
  {
    var r4 := Accounts.Register(db, bcrypt, Some("S"), Some("s@example.com"), Some("secret2"), Some(ESTUDIANTE));
    assert r4.status == CREATED;
  }

  /** The end-to-end course of a graded submission: a teacher registers,
      creates a subject and a task in it; a student registers, enrolls and
      submits; the teacher grades the submission with 85; the student then
      reads the submission with its grade. */
  lemma GradedSubmissionScenario(bcrypt: Accounts.Bcrypt)
    ensures
      var teacher := TeacherSetup(bcrypt);
      var student := StudentTurn(teacher[2].db, bcrypt);
      var graded := Entregas.Calificar(student[2].db, TEACHER, 1, Some(85), None);
      var v := Entregas.GetEntrega(graded.db, STUDENT, 1);
      && teacher[0].status == CREATED && teacher[1].status == CREATED && teacher[2].status == CREATED
      && student[0].status == CREATED && student[1].status == CREATED && student[2].status == CREATED
      && graded.status == OK
      && v.status == OK && v.rows.Some? && v.rows.value.calificacion == Some(85)
  {
    TeacherSetupSucceeds(bcrypt);
    var teacher := TeacherSetup(bcrypt);
    StudentTurnSucceeds(teacher[2].db, bcrypt);
    var student := StudentTurn(teacher[2].db, bcrypt);
    assert TareaProfesor(student[2].db, 1) == TareaProfesor(teacher[2].db, 1) == Some(TEACHER.id);
    assert EntregaProfesor(student[2].db, 1) == Some(TEACHER.id);
    Entregas.GradeVisibleToSubmitter(student[2].db, TEACHER, STUDENT, 1, Some(85), None);
  }
}
