/** The account routes: `POST /register`, `POST /login`, `PUT /users/:id`,
    `PUT /users/:id/password` and `GET /users/:id`. Each is a function from
    the store (and the caller, once `auth` has admitted one) to the answer and
    the store afterwards. bcrypt is a foreign library and enters as the
    parameter `bcrypt`. */
module Accounts {
  import opened Values
  import opened Schema

  /** bcrypt, uninterpreted: `hash(p)` is the digest `bcrypt.hash(p, 10)`
      returns, `matches(p, h)` is `bcrypt.compare(p, h)`. */
  datatype Bcrypt = Bcrypt(hash: string -> string, matches: (string, string) -> bool)

  /** The public projection of a user row: the claims a token carries. */
  function Public(id: int, u: Usuario): Claims {
    Claims(id, u.nombre, u.email, u.rol)
  }

  /** `POST /register` (no token needed). */
  function Register(db: Db, bcrypt: Bcrypt, nombre: Field, email: Field, contrasena: Field, rol: Field): (r: Outcome)
    ensures r.status == CREATED || r.status == BAD_REQUEST
    ensures r.status == CREATED <==>
      && Truthy(nombre) && Truthy(email) && Truthy(contrasena) && Truthy(rol)
      && rol.value in [ESTUDIANTE, PROFESOR]
      && !EmailInUse(db, email.value, None)
    ensures r.status == BAD_REQUEST ==> r.db == db && r.body == Message
    ensures r.status == CREATED ==>
      var id := db.next.usuario;
      var u := Usuario(nombre.value, email.value, bcrypt.hash(contrasena.value), rol.value);
      && r.db == db.(usuarios := db.usuarios[id := u], next := db.next.(usuario := id + 1))
      && r.body == Session(Public(id, u))
    ensures db.Valid() && r.status == CREATED ==> db.next.usuario !in db.usuarios && |r.db.usuarios| == |db.usuarios| + 1
    ensures db.Valid() ==> r.db.Valid()
  {
    if !Truthy(nombre) || !Truthy(email) || !Truthy(contrasena) || !Truthy(rol) then
      Outcome(BAD_REQUEST, db, Message)
    else if rol.value !in [ESTUDIANTE, PROFESOR] then
      Outcome(BAD_REQUEST, db, Message)
    else if EmailInUse(db, email.value, None) then
      Outcome(BAD_REQUEST, db, Message)
    else
      var id := db.next.usuario;
      var u := Usuario(nombre.value, email.value, bcrypt.hash(contrasena.value), rol.value);
      Outcome(CREATED, db.(usuarios := db.usuarios[id := u], next := db.next.(usuario := id + 1)), Session(Public(id, u)))
  }

  /** The user `SELECT * FROM usuarios WHERE email = ?` answers first with. */
  ghost function UserWithEmail(db: Db, email: string): (id: Option<int>)
    ensures id.Some? <==> EmailInUse(db, email, None)
    ensures id.Some? ==> id.value in db.usuarios && db.usuarios[id.value].email == email
  {
    if EmailInUse(db, email, None) then
      Some(var id :| id in db.usuarios && db.usuarios[id].email == email; id)
    else None
  }

  /** `POST /login` (no token needed); on 200 the rows are the claims the
      issued token signs. It changes nothing. */
  ghost function Login(db: Db, bcrypt: Bcrypt, email: Field, contrasena: Field): (r: View<Option<Claims>>)
    ensures r.status in {OK, BAD_REQUEST, UNAUTHORIZED}
    ensures r.status == BAD_REQUEST <==> !Truthy(email) || !Truthy(contrasena)
    ensures r.status == OK <==> r.rows.Some?
    ensures r.status == OK ==>
      exists id :: id in db.usuarios && db.usuarios[id].email == email.value
        && bcrypt.matches(contrasena.value, db.usuarios[id].contrasena)
        && r.rows == Some(Public(id, db.usuarios[id]))
    ensures Truthy(email) && Truthy(contrasena)
      && (forall id :: id in db.usuarios && db.usuarios[id].email == email.value
            ==> !bcrypt.matches(contrasena.value, db.usuarios[id].contrasena))
      ==> r.status == UNAUTHORIZED
    ensures db.Valid() && Truthy(email) && Truthy(contrasena)
      && (exists id :: id in db.usuarios && db.usuarios[id].email == email.value
            && bcrypt.matches(contrasena.value, db.usuarios[id].contrasena))
      ==> r.status == OK
  {
    if !Truthy(email) || !Truthy(contrasena) then View(BAD_REQUEST, None)
    else match UserWithEmail(db, email.value)
      case None => View(UNAUTHORIZED, None)
      case Some(id) =>
        if !bcrypt.matches(contrasena.value, db.usuarios[id].contrasena) then View(UNAUTHORIZED, None)
        else View(OK, Some(Public(id, db.usuarios[id])))
  }

  /** `PUT /users/:id`: a user edits their own name and/or e-mail. */
  function UpdateUser(db: Db, caller: Claims, pathId: int, nombre: Field, email: Field): (r: Outcome)
    ensures r.status in {OK, BAD_REQUEST, FORBIDDEN, INTERNAL_ERROR}
    ensures pathId != caller.id ==> r.status == FORBIDDEN
    ensures pathId == caller.id && !Truthy(nombre) && !Truthy(email) ==> r.status == BAD_REQUEST
    ensures pathId == caller.id && Truthy(email) && EmailInUse(db, email.value, Some(pathId)) ==> r.status == BAD_REQUEST
    ensures r.status == OK <==>
      && pathId == caller.id && (Truthy(nombre) || Truthy(email))
      && !(Truthy(email) && EmailInUse(db, email.value, Some(pathId)))
      && pathId in db.usuarios
    ensures r.status == BAD_REQUEST <==>
      && pathId == caller.id
      && ((!Truthy(nombre) && !Truthy(email)) || (Truthy(email) && EmailInUse(db, email.value, Some(pathId))))
    ensures r.status == INTERNAL_ERROR <==>
      && pathId == caller.id && (Truthy(nombre) || Truthy(email))
      && !(Truthy(email) && EmailInUse(db, email.value, Some(pathId)))
      && pathId !in db.usuarios
    ensures r.status != OK ==> r.db == db
    ensures r.status == OK ==> pathId in db.usuarios && pathId in r.db.usuarios
    ensures r.status == OK ==>
      var u := db.usuarios[pathId];
      var u' := r.db.usuarios[pathId];
      && r.db == db.(usuarios := db.usuarios[pathId := u'])
      && u'.nombre == (if Truthy(nombre) then nombre.value else u.nombre)
      && u'.email == (if Truthy(email) then email.value else u.email)
      && u'.contrasena == u.contrasena && u'.rol == u.rol
      && r.body == Session(Public(pathId, u'))
    ensures db.Valid() ==> r.db.Valid()
  {
    if pathId != caller.id then Outcome(FORBIDDEN, db, Message)
    else if !Truthy(nombre) && !Truthy(email) then Outcome(BAD_REQUEST, db, Message)
    else if Truthy(email) && EmailInUse(db, email.value, Some(pathId)) then Outcome(BAD_REQUEST, db, Message)
    else if pathId !in db.usuarios then
      // the UPDATE matches no row and `crearToken(rows[0])` throws
      Outcome(INTERNAL_ERROR, db, Message)
    else
      var u := db.usuarios[pathId];
      var u' := u.(nombre := OrElse(nombre, u.nombre), email := OrElse(email, u.email));
      Outcome(OK, db.(usuarios := db.usuarios[pathId := u']), Session(Public(pathId, u')))
  }

  /** One `SET column = ?` clause of the UPDATE that `PUT /users/:id` assembles. */
  datatype SetClause = SetNombre(nombre: string) | SetEmail(email: string)

  /** The row after `UPDATE usuarios SET <clauses> WHERE id = ?`. */
  function ApplySet(u: Usuario, clauses: seq<SetClause>): (u': Usuario)
    ensures u'.contrasena == u.contrasena && u'.rol == u.rol
    decreases |clauses|
  {
    if clauses == [] then u
    else
      var u1 := match clauses[0]
        case SetNombre(n) => u.(nombre := n)
        case SetEmail(e) => u.(email := e);
      ApplySet(u1, clauses[1..])
  }

  /** `PUT /users/:id/password`. */
  function ChangePassword(db: Db, bcrypt: Bcrypt, caller: Claims, pathId: int, current: Field, newPassword: Field): (r: Outcome)
    ensures r.status in {OK, BAD_REQUEST, UNAUTHORIZED, FORBIDDEN, NOT_FOUND}
    ensures pathId != caller.id ==> r.status == FORBIDDEN
    ensures pathId == caller.id && Truthy(current) && Truthy(newPassword) && |newPassword.value| < 6 ==> r.status == BAD_REQUEST
    ensures r.status == OK <==>
      && pathId == caller.id && Truthy(current) && Truthy(newPassword) && |newPassword.value| >= 6
      && pathId in db.usuarios && bcrypt.matches(current.value, db.usuarios[pathId].contrasena)
    ensures r.status == FORBIDDEN <==> pathId != caller.id
    ensures r.status == BAD_REQUEST <==>
      pathId == caller.id && (!Truthy(current) || !Truthy(newPassword) || |newPassword.value| < 6)
    ensures r.status == NOT_FOUND <==>
      && pathId == caller.id && Truthy(current) && Truthy(newPassword) && |newPassword.value| >= 6
      && pathId !in db.usuarios
    ensures r.status == UNAUTHORIZED <==>
      && pathId == caller.id && Truthy(current) && Truthy(newPassword) && |newPassword.value| >= 6
      && pathId in db.usuarios && !bcrypt.matches(current.value, db.usuarios[pathId].contrasena)
    ensures r.status != OK ==> r.db == db
    ensures r.status == OK ==>
      r.db == db.(usuarios := db.usuarios[pathId := db.usuarios[pathId].(contrasena := bcrypt.hash(newPassword.value))])
    ensures db.Valid() ==> r.db.Valid()
  {
    if pathId != caller.id then Outcome(FORBIDDEN, db, Message)
    else if !Truthy(current) || !Truthy(newPassword) then Outcome(BAD_REQUEST, db, Message)
    else if |newPassword.value| < 6 then Outcome(BAD_REQUEST, db, Message)
    else if pathId !in db.usuarios then Outcome(NOT_FOUND, db, Message)
    else
      var u := db.usuarios[pathId];
      if !bcrypt.matches(current.value, u.contrasena) then Outcome(UNAUTHORIZED, db, Message)
      else Outcome(OK, db.(usuarios := db.usuarios[pathId := u.(contrasena := bcrypt.hash(newPassword.value))]), Message)
  }

  /** `GET /users/:id`: the user themself or any teacher may read a profile. */
  function GetUser(db: Db, caller: Claims, pathId: int): (r: View<Option<Claims>>)
    ensures r.status in {OK, FORBIDDEN, NOT_FOUND}
    ensures pathId != caller.id && caller.rol != PROFESOR ==> r.status == FORBIDDEN
    ensures r.status == OK <==> (pathId == caller.id || caller.rol == PROFESOR) && pathId in db.usuarios
    ensures r.status == NOT_FOUND <==> (pathId == caller.id || caller.rol == PROFESOR) && pathId !in db.usuarios
    ensures r.rows.Some? <==> r.status == OK
    ensures r.status == OK ==> r.rows == Some(Public(pathId, db.usuarios[pathId]))
  {
    if pathId != caller.id && caller.rol != PROFESOR then View(FORBIDDEN, None)
    else if pathId !in db.usuarios then View(NOT_FOUND, None)
    else View(OK, Some(Public(pathId, db.usuarios[pathId])))
  }

  /** A fresh registration can log in at once with the same password (given
      bcrypt's own promise that a password matches its digest), and the login
      answers with the registered user. */
  lemma RegisterThenLogin(db: Db, bcrypt: Bcrypt, nombre: Field, email: Field, contrasena: Field, rol: Field)
    requires db.Valid()
    requires Register(db, bcrypt, nombre, email, contrasena, rol).status == CREATED
    requires bcrypt.matches(contrasena.value, bcrypt.hash(contrasena.value))
    ensures var r := Register(db, bcrypt, nombre, email, contrasena, rol);
      Login(r.db, bcrypt, email, contrasena) == View(OK, Some(r.body.user))
  {
    var r := Register(db, bcrypt, nombre, email, contrasena, rol);
    var id := db.next.usuario;
    assert r.db.usuarios[id].email == email.value;
    var found := UserWithEmail(r.db, email.value);
    assert found == Some(id);
  }

  /** A password change takes effect: afterwards the new password logs in as
      the same user (given bcrypt's promise that a password matches its
      digest). */
  lemma ChangePasswordThenLogin(db: Db, bcrypt: Bcrypt, caller: Claims, current: Field, newPassword: Field)
    requires db.Valid()
    requires ChangePassword(db, bcrypt, caller, caller.id, current, newPassword).status == OK
    requires bcrypt.matches(newPassword.value, bcrypt.hash(newPassword.value))
    ensures var r := ChangePassword(db, bcrypt, caller, caller.id, current, newPassword);
      var u := r.db.usuarios[caller.id];
      Login(r.db, bcrypt, Some(u.email), newPassword) == View(OK, Some(Public(caller.id, u)))
  {
    var r := ChangePassword(db, bcrypt, caller, caller.id, current, newPassword);
    var u := r.db.usuarios[caller.id];
    assert UserWithEmail(r.db, u.email) == Some(caller.id);
  }
}
