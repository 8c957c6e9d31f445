/** The comment routes: `GET /tareas/:id/comentarios`,
    `POST /tareas/:id/comentarios` and `DELETE /comentarios/:id`. None of
    them has a role gate. */
module Comentarios {
  import opened Values
  import opened Schema
  import opened JsStrings

  /** `GET /tareas/:id/comentarios`: the task's comments whose author row
      exists; the task itself is not looked up. */
  function ListComentarios(db: Db, tareaId: int): (r: View<map<int, Comentario>>)
    ensures r.status == OK
    ensures forall c :: c in r.rows <==>
      c in db.comentarios && db.comentarios[c].tareaId == tareaId && db.comentarios[c].usuarioId in db.usuarios
    ensures forall c :: c in r.rows ==> r.rows[c] == db.comentarios[c]
  {
    View(OK, map c | c in db.comentarios && db.comentarios[c].tareaId == tareaId
                     && db.comentarios[c].usuarioId in db.usuarios :: db.comentarios[c])
  }

  /** Whether a comment text is refused: absent, empty, or blank once trimmed. */
  predicate Blank(texto: Field) {
    !Truthy(texto) || Trim(texto.value) == ""
  }

  /** A text is blank exactly when it is absent or made of white space only
      (the empty text included). */
  lemma BlankIffAllSpace(texto: Field)
    ensures Blank(texto) <==> texto.None? || AllSpace(texto.value)
  {
    if texto.Some? {
      TrimEmptyIffAllSpace(texto.value);
    }
  }

  /** `POST /tareas/:id/comentarios`, for any authenticated caller: the text
      is stored as sent, untrimmed. */
  function CreateComentario(db: Db, caller: Claims, tareaId: int, texto: Field): (r: Outcome)
    ensures r.status in {CREATED, BAD_REQUEST, NOT_FOUND}
    ensures r.status == BAD_REQUEST <==> Blank(texto)
    ensures r.status == CREATED <==> !Blank(texto) && tareaId in db.tareas
    ensures r.status != CREATED ==> r.db == db
    ensures r.status == CREATED ==>
      var id := db.next.comentario;
      && r.db == db.(comentarios := db.comentarios[id := Comentario(tareaId, caller.id, texto.value)],
                     next := db.next.(comentario := id + 1))
      && r.body == NewId(id)
    ensures db.Valid() ==> r.db.Valid()
  {
    if Blank(texto) then Outcome(BAD_REQUEST, db, Message)
    else if tareaId !in db.tareas then Outcome(NOT_FOUND, db, Message)
    else
      var id := db.next.comentario;
      Outcome(CREATED, db.(comentarios := db.comentarios[id := Comentario(tareaId, caller.id, texto.value)],
                           next := db.next.(comentario := id + 1)), NewId(id))
  }

  /** Who may delete a comment: its author or the teacher of the subject of
      its task. */
  predicate MayDelete(db: Db, caller: Claims, id: int)
    requires id in db.comentarios
  {
    db.comentarios[id].usuarioId == caller.id || ComentarioProfesor(db, id) == Some(caller.id)
  }

  /** `DELETE /comentarios/:id`: 404 unless the comment, its task and the
      task's subject all exist; then 403 unless the caller may delete it. */
  function DeleteComentario(db: Db, caller: Claims, id: int): (r: Outcome)
    ensures r.status in {OK, FORBIDDEN, NOT_FOUND}
    ensures r.status == NOT_FOUND <==> ComentarioProfesor(db, id).None?
    ensures r.status == OK <==>
      && ComentarioProfesor(db, id).Some?
      && (db.comentarios[id].usuarioId == caller.id || ComentarioProfesor(db, id) == Some(caller.id))
    ensures r.status != OK ==> r.db == db
    ensures r.status == OK ==> r.db == db.(comentarios := db.comentarios - {id})
    ensures db.Valid() ==> r.db.Valid()
  {
    if ComentarioProfesor(db, id).None? then Outcome(NOT_FOUND, db, Message)
    else if !MayDelete(db, caller, id) then Outcome(FORBIDDEN, db, Message)
    else Outcome(OK, db.(comentarios := db.comentarios - {id}), Message)
  }

  /** A comment is refused with 400 exactly when it is absent or made only of
      white space and line terminators (the empty text included). */
  lemma BlankCommentRefused(db: Db, caller: Claims, tareaId: int, texto: Field)
    ensures CreateComentario(db, caller, tareaId, texto).status == BAD_REQUEST <==>
      texto.None? || AllSpace(texto.value)
  {
    BlankIffAllSpace(texto);
  }

  /** The author of a fresh comment on a task whose subject exists can delete
      it again, which leaves the store as before except for the spent id. */
  lemma CreateThenDelete(db: Db, caller: Claims, tareaId: int, texto: Field)
    requires db.Valid()
    requires CreateComentario(db, caller, tareaId, texto).status == CREATED
    requires TareaProfesor(db, tareaId).Some?
    ensures var created := CreateComentario(db, caller, tareaId, texto);
      DeleteComentario(created.db, caller, created.body.id)
        == Outcome(OK, db.(next := db.next.(comentario := db.next.comentario + 1)), Message)
  {
    var created := CreateComentario(db, caller, tareaId, texto);
    var id := db.next.comentario;
    assert id !in db.comentarios;
    assert created.db.comentarios - {id} == db.comentarios;
  }
}
