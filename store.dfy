/** The server's store as an object: one field per table and the id
    counters, and one method per route that runs the route's
    guards in order, returns early on the first that fails, and otherwise
    writes the table. Each method is proved to answer and to leave the store
    exactly as the route's function on `Schema.Db` says, and to keep the
    store valid. */
module Api {
  import opened Values
  import opened Schema
  import opened Gates
  import Accounts
  import Materias
  import Tareas
  import Entregas
  import Comentarios
  import Server
  import JsStrings

  class Store {
    var usuarios: map<int, Usuario>
    var materias: map<int, Materia>
    var inscripciones: set<Inscripcion>
    var tareas: map<int, Tarea>
    var entregas: map<int, Entrega>
    var comentarios: map<int, Comentario>
    var next: NextIds

    /** The tables as a value. */
    function Snapshot(): Db
      reads this
    {
      Db(usuarios, materias, inscripciones, tareas, entregas, comentarios, next)
    }

    ghost predicate Valid()
      reads this
    {
      Snapshot().Valid()
    }

    /** A freshly created schema: empty tables, every counter at 1. */
    constructor()
      ensures Snapshot() == Empty && Valid()
    {
      usuarios, materias, inscripciones := map[], map[], {};
      tareas, entregas, comentarios := map[], map[], map[];
      next := NextIds(1, 1, 1, 1, 1);
    }

    // ---------------------------------------------------------------- accounts

    method Register(bcrypt: Accounts.Bcrypt, nombre: Field, email: Field, contrasena: Field, rol: Field)
      returns (status: int, body: Body)
      requires Valid()
      modifies this
      ensures Valid()
      ensures Outcome(status, Snapshot(), body) == Accounts.Register(old(Snapshot()), bcrypt, nombre, email, contrasena, rol)
    {
      if !Truthy(nombre) || !Truthy(email) || !Truthy(contrasena) || !Truthy(rol) {
        return BAD_REQUEST, Message;
      }
      if rol.value !in [ESTUDIANTE, PROFESOR] {
        return BAD_REQUEST, Message;
      }
      if EmailInUse(Snapshot(), email.value, None) {
        return BAD_REQUEST, Message;
      }
      var hash := bcrypt.hash(contrasena.value);
      var id := next.usuario;
      usuarios := usuarios[id := Usuario(nombre.value, email.value, hash, rol.value)];
      next := next.(usuario := id + 1);
      return CREATED, Session(Accounts.Public(id, usuarios[id]));
    }

    /** `POST /login`: the first row with the e-mail (there is at most one in
        a valid store), then the password check. */
    method Login(bcrypt: Accounts.Bcrypt, email: Field, contrasena: Field) returns (status: int, user: Option<Claims>)
      requires Valid()
      ensures View(status, user) == Accounts.Login(Snapshot(), bcrypt, email, contrasena)
    {
      if !Truthy(email) || !Truthy(contrasena) {
        return BAD_REQUEST, None;
      }
      if !EmailInUse(Snapshot(), email.value, None) {
        return UNAUTHORIZED, None;
      }
      var id :| id in usuarios && usuarios[id].email == email.value;
      assert Accounts.UserWithEmail(Snapshot(), email.value) == Some(id);
      var row := usuarios[id];
      if !bcrypt.matches(contrasena.value, row.contrasena) {
        return UNAUTHORIZED, None;
      }
      return OK, Some(Accounts.Public(id, row));
    }

    /** `PUT /users/:id`: the SET clauses are pushed one by one, for the
        fields that are present, then applied to the caller's row. */
    method UpdateUser(caller: Claims, pathId: int, nombre: Field, email: Field) returns (status: int, body: Body)
      requires Valid()
      modifies this
      ensures Valid()
      ensures Outcome(status, Snapshot(), body) == Accounts.UpdateUser(old(Snapshot()), caller, pathId, nombre, email)
    {
      if pathId != caller.id {
        return FORBIDDEN, Message;
      }
      if !Truthy(nombre) && !Truthy(email) {
        return BAD_REQUEST, Message;
      }
      if Truthy(email) && EmailInUse(Snapshot(), email.value, Some(pathId)) {
        return BAD_REQUEST, Message;
      }
      var clauses: seq<Accounts.SetClause> := [];
      if Truthy(nombre) {
        clauses := clauses + [Accounts.SetNombre(nombre.value)];
      }
      if Truthy(email) {
        clauses := clauses + [Accounts.SetEmail(email.value)];
      }
      if pathId !in usuarios {
        // the UPDATE matches no row, and building the token from the missing row throws
        return INTERNAL_ERROR, Message;
      }
      var u := usuarios[pathId];
      SetClausesApplied(u, nombre, email, clauses);
      usuarios := usuarios[pathId := Accounts.ApplySet(u, clauses)];
      return OK, Session(Accounts.Public(pathId, usuarios[pathId]));
    }

    /** The pushed clauses set exactly the present fields. */
    static lemma SetClausesApplied(u: Usuario, nombre: Field, email: Field, clauses: seq<Accounts.SetClause>)
      requires clauses ==
        (if Truthy(nombre) then [Accounts.SetNombre(nombre.value)] else [])
        + (if Truthy(email) then [Accounts.SetEmail(email.value)] else [])
      ensures Accounts.ApplySet(u, clauses) == u.(nombre := OrElse(nombre, u.nombre), email := OrElse(email, u.email))
    {
      if Truthy(nombre) && Truthy(email) {
        var u1 := u.(nombre := nombre.value);
        assert clauses[1..] == [Accounts.SetEmail(email.value)];
        assert Accounts.ApplySet(u, clauses) == Accounts.ApplySet(u1, clauses[1..]);
        assert clauses[1..][1..] == [];
        assert Accounts.ApplySet(u1, clauses[1..]) == Accounts.ApplySet(u1.(email := email.value), []);
      } else if clauses != [] {
        assert clauses[1..] == [];
      }
    }

    method ChangePassword(bcrypt: Accounts.Bcrypt, caller: Claims, pathId: int, current: Field, newPassword: Field)
      returns (status: int)
      requires Valid()
      modifies this
      ensures Valid()
      ensures Outcome(status, Snapshot(), Message)
        == Accounts.ChangePassword(old(Snapshot()), bcrypt, caller, pathId, current, newPassword)
    {
      if pathId != caller.id {
        return FORBIDDEN;
      }
      if !Truthy(current) || !Truthy(newPassword) {
        return BAD_REQUEST;
      }
      if |newPassword.value| < 6 {
        return BAD_REQUEST;
      }
      if pathId !in usuarios {
        return NOT_FOUND;
      }
      var row := usuarios[pathId];
      if !bcrypt.matches(current.value, row.contrasena) {
        return UNAUTHORIZED;
      }
      var hash := bcrypt.hash(newPassword.value);
      usuarios := usuarios[pathId := row.(contrasena := hash)];
      return OK;
    }

    method GetUser(caller: Claims, pathId: int) returns (status: int, user: Option<Claims>)
      ensures View(status, user) == Accounts.GetUser(Snapshot(), caller, pathId)
    {
      if pathId != caller.id && caller.rol != PROFESOR {
        return FORBIDDEN, None;
      }
      if pathId !in usuarios {
        return NOT_FOUND, None;
      }
      return OK, Some(Accounts.Public(pathId, usuarios[pathId]));
    }

    // ---------------------------------------------------------------- subjects

    method CreateMateria(caller: Claims, nombre: Field, descripcion: Field, codigo: Field) returns (status: int, body: Body)
      requires Valid()
      modifies this
      ensures Valid()
      ensures Outcome(status, Snapshot(), body) == Materias.CreateMateria(old(Snapshot()), caller, nombre, descripcion, codigo)
    {
      if !RolesPermitidos([PROFESOR], Some(caller)) {
        return FORBIDDEN, Message;
      }
      if !Truthy(nombre) {
        return BAD_REQUEST, Message;
      }
      if CodigoInUse(Snapshot(), OrNull(codigo), None) {
        // ER_DUP_ENTRY on the unique `codigo`
        return BAD_REQUEST, Message;
      }
      var id := next.materia;
      materias := materias[id := Materia(nombre.value, OrNull(descripcion), OrNull(codigo), caller.id)];
      next := next.(materia := id + 1);
      return CREATED, NewId(id);
    }

    /** `SELECT ... FROM materias JOIN usuarios ON profesor_id`: the query's own
        result set, which the route function states as a map. */
    method ListMaterias() returns (status: int, rows: map<int, Materia>)
      ensures View(status, rows) == Materias.ListMaterias(Snapshot())
    {
      rows := map m | m in materias && materias[m].profesorId in usuarios :: materias[m];
      return OK, rows;
    }

    method GetMateria(id: int) returns (status: int, row: Option<Materia>)
      ensures View(status, row) == Materias.GetMateria(Snapshot(), id)
    {
      if id !in materias || materias[id].profesorId !in usuarios {
        return NOT_FOUND, None;
      }
      return OK, Some(materias[id]);
    }

    method UpdateMateria(caller: Claims, id: int, nombre: Field, descripcion: Field, codigo: Field) returns (status: int)
      requires Valid()
      modifies this
      ensures Valid()
      ensures Outcome(status, Snapshot(), Message)
        == Materias.UpdateMateria(old(Snapshot()), caller, id, nombre, descripcion, codigo)
    {
      if !RolesPermitidos([PROFESOR], Some(caller)) {
        return FORBIDDEN;
      }
      if id !in materias {
        return NOT_FOUND;
      }
      var row := materias[id];
      if row.profesorId != caller.id {
        return FORBIDDEN;
      }
      var edited := Materias.EditedMateria(row, nombre, descripcion, codigo);
      if CodigoInUse(Snapshot(), edited.codigo, Some(id)) {
        // ER_DUP_ENTRY, which this route's catch answers with 500
        return INTERNAL_ERROR;
      }
      materias := materias[id := edited];
      return OK;
    }

    method DeleteMateria(caller: Claims, id: int) returns (status: int)
      requires Valid()
      modifies this
      ensures Valid()
      ensures Outcome(status, Snapshot(), Message) == Materias.DeleteMateria(old(Snapshot()), caller, id)
    {
      if !RolesPermitidos([PROFESOR], Some(caller)) {
        return FORBIDDEN;
      }
      if id !in materias {
        return NOT_FOUND;
      }
      if materias[id].profesorId != caller.id {
        return FORBIDDEN;
      }
      materias := materias - {id};
      return OK;
    }

    method Enroll(caller: Claims, materiaId: Option<int>) returns (status: int)
      requires Valid()
      modifies this
      ensures Valid()
      ensures Outcome(status, Snapshot(), Message) == Materias.Enroll(old(Snapshot()), caller, materiaId)
    {
      if !RolesPermitidos([ESTUDIANTE], Some(caller)) {
        return FORBIDDEN;
      }
      if !TruthyNum(materiaId) {
        return BAD_REQUEST;
      }
      if materiaId.value !in materias {
        return NOT_FOUND;
      }
      var pair := Inscripcion(caller.id, materiaId.value);
      if pair in inscripciones {
        // ER_DUP_ENTRY on the (estudiante_id, materia_id) key
        return BAD_REQUEST;
      }
      inscripciones := inscripciones + {pair};
      return CREATED;
    }

    method Unenroll(caller: Claims, materiaId: int) returns (status: int)
      requires Valid()
      modifies this
      ensures Valid()
      ensures Outcome(status, Snapshot(), Message) == Materias.Unenroll(old(Snapshot()), caller, materiaId)
    {
      if !RolesPermitidos([ESTUDIANTE], Some(caller)) {
        return FORBIDDEN;
      }
      inscripciones := inscripciones - {Inscripcion(caller.id, materiaId)};
      return OK;
    }

    /** One of the two role-specific SELECTs (`JOIN inscripciones` or
        `WHERE profesor_id = ?`), evaluated as the query would return it. */
    method MyMaterias(caller: Claims) returns (status: int, rows: map<int, Materia>)
      ensures View(status, rows) == Materias.MyMaterias(Snapshot(), caller)
    {
      if caller.rol == ESTUDIANTE {
        rows := map m | m in materias && Enrolled(Snapshot(), caller.id, m) && materias[m].profesorId in usuarios
                  :: materias[m];
      } else if caller.rol == PROFESOR {
        rows := map m | m in materias && materias[m].profesorId == caller.id && materias[m].profesorId in usuarios
                  :: materias[m];
      } else {
        return FORBIDDEN, map[];
      }
      return OK, rows;
    }

    // ---------------------------------------------------------------- tasks

    method CreateTarea(caller: Claims, materiaId: Option<int>, titulo: Field, descripcion: Field,
                       fechaEntrega: Field, archivoUrl: Field) returns (status: int, body: Body)
      requires Valid()
      modifies this
      ensures Valid()
      ensures Outcome(status, Snapshot(), body)
        == Tareas.CreateTarea(old(Snapshot()), caller, materiaId, titulo, descripcion, fechaEntrega, archivoUrl)
    {
      if !RolesPermitidos([PROFESOR], Some(caller)) {
        return FORBIDDEN, Message;
      }
      if !TruthyNum(materiaId) || !Truthy(titulo) {
        return BAD_REQUEST, Message;
      }
      if materiaId.value !in materias {
        return NOT_FOUND, Message;
      }
      if materias[materiaId.value].profesorId != caller.id {
        return FORBIDDEN, Message;
      }
      var id := next.tarea;
      tareas := tareas[id := Tarea(materiaId.value, titulo.value, OrNull(descripcion), OrNull(fechaEntrega), OrNull(archivoUrl))];
      next := next.(tarea := id + 1);
      return CREATED, NewId(id);
    }

    /** `SELECT * FROM tareas WHERE materia_id = ?`, evaluated on the tables. */
    method ListTareas(materiaId: int) returns (status: int, rows: map<int, Tarea>)
      ensures View(status, rows) == Tareas.ListTareas(Snapshot(), materiaId)
    {
      rows := map t | t in tareas && tareas[t].materiaId == materiaId :: tareas[t];
      return OK, rows;
    }

    method GetTarea(caller: Claims, id: int) returns (status: int, row: Option<Tarea>)
      ensures View(status, row) == Tareas.GetTarea(Snapshot(), caller, id)
    {
      var found: bool;
      if caller.rol == PROFESOR {
        found := TareaProfesor(Snapshot(), id) == Some(caller.id);
      } else if caller.rol == ESTUDIANTE {
        found := id in tareas && tareas[id].materiaId in materias
                 && Inscripcion(caller.id, tareas[id].materiaId) in inscripciones;
      } else {
        // no query text was chosen, and the driver rejects the empty query
        return INTERNAL_ERROR, None;
      }
      if !found {
        return NOT_FOUND, None;
      }
      return OK, Some(tareas[id]);
    }

    method UpdateTarea(caller: Claims, id: int, titulo: Field, descripcion: Field, fechaEntrega: Field, archivoUrl: Field)
      returns (status: int)
      requires Valid()
      modifies this
      ensures Valid()
      ensures Outcome(status, Snapshot(), Message)
        == Tareas.UpdateTarea(old(Snapshot()), caller, id, titulo, descripcion, fechaEntrega, archivoUrl)
    {
      if !RolesPermitidos([PROFESOR], Some(caller)) {
        return FORBIDDEN;
      }
      var owner := TareaProfesor(Snapshot(), id);
      if owner.None? {
        return NOT_FOUND;
      }
      if owner.value != caller.id {
        return FORBIDDEN;
      }
      tareas := tareas[id := Tareas.EditedTarea(tareas[id], titulo, descripcion, fechaEntrega, archivoUrl)];
      return OK;
    }

    method DeleteTarea(caller: Claims, id: int) returns (status: int)
      requires Valid()
      modifies this
      ensures Valid()
      ensures Outcome(status, Snapshot(), Message) == Tareas.DeleteTarea(old(Snapshot()), caller, id)
    {
      if !RolesPermitidos([PROFESOR], Some(caller)) {
        return FORBIDDEN;
      }
      var owner := TareaProfesor(Snapshot(), id);
      if owner.None? {
        return NOT_FOUND;
      }
      if owner.value != caller.id {
        return FORBIDDEN;
      }
      tareas := tareas - {id};
      return OK;
    }

    // ---------------------------------------------------------------- submissions

    method CreateEntrega(caller: Claims, tareaId: Option<int>, contenido: Field, archivoUrl: Field)
      returns (status: int, body: Body)
      requires Valid()
      modifies this
      ensures Valid()
      ensures Outcome(status, Snapshot(), body)
        == Entregas.CreateEntrega(old(Snapshot()), caller, tareaId, contenido, archivoUrl)
    {
      if !RolesPermitidos([ESTUDIANTE], Some(caller)) {
        return FORBIDDEN, Message;
      }
      if !TruthyNum(tareaId) {
        return BAD_REQUEST, Message;
      }
      if tareaId.value !in tareas {
        return NOT_FOUND, Message;
      }
      if EntregaExists(Snapshot(), tareaId.value, caller.id) {
        // ER_DUP_ENTRY on the (tarea_id, estudiante_id) key
        return BAD_REQUEST, Message;
      }
      var id := next.entrega;
      entregas := entregas[id := Entregas.NewEntrega(caller, tareaId.value, contenido, archivoUrl)];
      next := next.(entrega := id + 1);
      return CREATED, NewId(id);
    }

    method GetEntrega(caller: Claims, id: int) returns (status: int, row: Option<Entrega>)
      ensures View(status, row) == Entregas.GetEntrega(Snapshot(), caller, id)
    {
      var found: bool;
      if caller.rol == ESTUDIANTE {
        found := id in entregas && entregas[id].estudianteId == caller.id
                 && TareaProfesor(Snapshot(), entregas[id].tareaId).Some? && caller.id in usuarios;
      } else if caller.rol == PROFESOR {
        found := EntregaProfesor(Snapshot(), id) == Some(caller.id) && entregas[id].estudianteId in usuarios;
      } else {
        return FORBIDDEN, None;
      }
      if !found {
        return NOT_FOUND, None;
      }
      return OK, Some(entregas[id]);
    }

    /** The ownership SELECT, then `entregas JOIN usuarios WHERE tarea_id = ?`. */
    method EntregasDeTarea(caller: Claims, tareaId: int) returns (status: int, rows: map<int, Entrega>)
      ensures View(status, rows) == Entregas.EntregasDeTarea(Snapshot(), caller, tareaId)
    {
      if !RolesPermitidos([PROFESOR], Some(caller)) {
        return FORBIDDEN, map[];
      }
      if TareaProfesor(Snapshot(), tareaId) != Some(caller.id) {
        return NOT_FOUND, map[];
      }
      rows := map e | e in entregas && entregas[e].tareaId == tareaId && entregas[e].estudianteId in usuarios
                :: entregas[e];
      return OK, rows;
    }

    method Calificar(caller: Claims, id: int, calificacion: Option<int>, comentario: Field) returns (status: int)
      requires Valid()
      modifies this
      ensures Valid()
      ensures Outcome(status, Snapshot(), Message)
        == Entregas.Calificar(old(Snapshot()), caller, id, calificacion, comentario)
    {
      if !RolesPermitidos([PROFESOR], Some(caller)) {
        return FORBIDDEN;
      }
      var owner := EntregaProfesor(Snapshot(), id);
      if owner.None? {
        return NOT_FOUND;
      }
      if owner.value != caller.id {
        return FORBIDDEN;
      }
      entregas := entregas[id := entregas[id].(calificacion := OrNullNum(calificacion), comentario := OrNull(comentario))];
      return OK;
    }

    /** One of the two role-specific SELECTs over `entregas JOIN tareas JOIN
        materias`, evaluated as the query would return it. */
    method MyEntregas(caller: Claims) returns (status: int, rows: map<int, Entrega>)
      ensures View(status, rows) == Entregas.MyEntregas(Snapshot(), caller)
    {
      var db := Snapshot();
      if caller.rol == ESTUDIANTE {
        rows := map e | e in entregas && entregas[e].estudianteId == caller.id
                        && TareaProfesor(db, entregas[e].tareaId).Some? :: entregas[e];
      } else if caller.rol == PROFESOR {
        rows := map e | e in entregas && TareaProfesor(db, entregas[e].tareaId) == Some(caller.id)
                        && entregas[e].calificacion.None? && entregas[e].estudianteId in usuarios :: entregas[e];
      } else {
        return FORBIDDEN, map[];
      }
      return OK, rows;
    }

    // ---------------------------------------------------------------- comments

    /** `SELECT ... FROM comentarios JOIN usuarios WHERE tarea_id = ?`, evaluated
        on the tables. */
    method ListComentarios(tareaId: int) returns (status: int, rows: map<int, Comentario>)
      ensures View(status, rows) == Comentarios.ListComentarios(Snapshot(), tareaId)
    {
      rows := map c | c in comentarios && comentarios[c].tareaId == tareaId && comentarios[c].usuarioId in usuarios
                :: comentarios[c];
      return OK, rows;
    }

    method CreateComentario(caller: Claims, tareaId: int, texto: Field) returns (status: int, body: Body)
      requires Valid()
      modifies this
      ensures Valid()
      ensures Outcome(status, Snapshot(), body) == Comentarios.CreateComentario(old(Snapshot()), caller, tareaId, texto)
    {
      if !Truthy(texto) || JsStrings.Trim(texto.value) == "" {
        return BAD_REQUEST, Message;
      }
      if tareaId !in tareas {
        return NOT_FOUND, Message;
      }
      var id := next.comentario;
      comentarios := comentarios[id := Comentario(tareaId, caller.id, texto.value)];
      next := next.(comentario := id + 1);
      return CREATED, NewId(id);
    }

    method DeleteComentario(caller: Claims, id: int) returns (status: int)
      requires Valid()
      modifies this
      ensures Valid()
      ensures Outcome(status, Snapshot(), Message) == Comentarios.DeleteComentario(old(Snapshot()), caller, id)
    {
      var teacher := ComentarioProfesor(Snapshot(), id);
      if teacher.None? {
        return NOT_FOUND;
      }
      if comentarios[id].usuarioId != caller.id && teacher.value != caller.id {
        return FORBIDDEN;
      }
      comentarios := comentarios - {id};
      return OK;
    }

    // ---------------------------------------------------------------- the middleware chain

    /** One mutating request: `auth` first (except for `POST /register`),
        then the route's method. The store afterwards is the one
        `Server.Serve` describes, so the properties proved about runs of
        requests hold of the object too. */
    method Serve(bcrypt: Accounts.Bcrypt, verify: string -> Option<Claims>, req: Server.Request)
      returns (status: int, body: Body)
      requires Valid()
      modifies this
      ensures Valid()
      ensures Outcome(status, Snapshot(), body) == Server.Serve(old(Snapshot()), bcrypt, verify, req)
    {
      if req.route.PostRegister? {
        status, body := Register(bcrypt, req.route.nombre, req.route.email, req.route.contrasena, req.route.rol);
        return;
      }
      var gate := Auth(req.header, verify);
      if gate.Unauthorized? {
        return UNAUTHORIZED, Message;
      }
      var caller := gate.user;
      if req.route.PutUsers? || req.route.PutUsersPassword? || req.route.PostMaterias? || req.route.PutMaterias?
        || req.route.DeleteMaterias? || req.route.PostInscripciones? || req.route.DeleteInscripciones? {
        status, body := HandleAccountsAndSubjects(bcrypt, caller, req.route);
      } else if req.route.PostTareas? || req.route.PutTareas? || req.route.DeleteTareas? {
        status, body := HandleTasks(bcrypt, caller, req.route);
      } else {
        status, body := HandleSubmissionsAndComments(bcrypt, caller, req.route);
      }
    }

    /** The routes on users, subjects and enrollments, once `auth` admitted the caller. */
    method HandleAccountsAndSubjects(bcrypt: Accounts.Bcrypt, caller: Claims, route: Server.Route)
      returns (status: int, body: Body)
      requires route.PutUsers? || route.PutUsersPassword? || route.PostMaterias? || route.PutMaterias?
        || route.DeleteMaterias? || route.PostInscripciones? || route.DeleteInscripciones?
      requires Valid()
      modifies this
      ensures Valid()
      ensures Outcome(status, Snapshot(), body) == Server.Handle(old(Snapshot()), bcrypt, caller, route)
    {
      body := Message;
      match route {
        case PutUsers(id, nombre, email) =>
          status, body := UpdateUser(caller, id, nombre, email);
        case PutUsersPassword(id, current, newPassword) =>
          status := ChangePassword(bcrypt, caller, id, current, newPassword);
        case PostMaterias(nombre, descripcion, codigo) =>
          status, body := CreateMateria(caller, nombre, descripcion, codigo);
        case PutMaterias(id, nombre, descripcion, codigo) =>
          status := UpdateMateria(caller, id, nombre, descripcion, codigo);
        case DeleteMaterias(id) =>
          status := DeleteMateria(caller, id);
        case PostInscripciones(materia) =>
          status := Enroll(caller, materia);
        case DeleteInscripciones(materiaId) =>
          status := Unenroll(caller, materiaId);
      }
    }

    /** The routes on tasks, once `auth` admitted the caller. */
    method HandleTasks(bcrypt: Accounts.Bcrypt, caller: Claims, route: Server.Route) returns (status: int, body: Body)
      requires route.PostTareas? || route.PutTareas? || route.DeleteTareas?
      requires Valid()
      modifies this
      ensures Valid()
      ensures Outcome(status, Snapshot(), body) == Server.Handle(old(Snapshot()), bcrypt, caller, route)
    {
      body := Message;
      match route {
        case PostTareas(materia, titulo, descripcion, fechaEntrega, archivoUrl) =>
          status, body := CreateTarea(caller, materia, titulo, descripcion, fechaEntrega, archivoUrl);
        case PutTareas(id, titulo, descripcion, fechaEntrega, archivoUrl) =>
          status := UpdateTarea(caller, id, titulo, descripcion, fechaEntrega, archivoUrl);
        case DeleteTareas(id) =>
          status := DeleteTarea(caller, id);
      }
    }

    /** The routes on submissions and comments, once `auth` admitted the caller. */
    method HandleSubmissionsAndComments(bcrypt: Accounts.Bcrypt, caller: Claims, route: Server.Route)
      returns (status: int, body: Body)
      requires route.PostEntregas? || route.PutCalificar? || route.PostComentarios? || route.DeleteComentarios?
      requires Valid()
      modifies this
      ensures Valid()
      ensures Outcome(status, Snapshot(), body) == Server.Handle(old(Snapshot()), bcrypt, caller, route)
    {
      body := Message;
      match route {
        case PostEntregas(tarea, contenido, archivoUrl) =>
          status, body := CreateEntrega(caller, tarea, contenido, archivoUrl);
        case PutCalificar(id, calificacion, comentario) =>
          status := Calificar(caller, id, calificacion, comentario);
        case PostComentarios(tareaId, texto) =>
          status, body := CreateComentario(caller, tareaId, texto);
        case DeleteComentarios(id) =>
          status := DeleteComentario(caller, id);
      }
    }
  }
}
