# Course-management API: request decisions over an abstract store

This project models the decision logic of the Express back end in
`backend/app.js`: the `auth` and `rolesPermitidos` middlewares, and every route
handler from `POST /register` to `DELETE /comentarios/:id`. Teachers
(`profesor`) create subjects (`materias`) and tasks (`tareas`). Students
(`estudiante`) enroll (`inscripciones`) and submit work (`entregas`). Teachers
grade the submissions, and anyone signed in may comment (`comentarios`).

The MySQL database is replaced by an in-memory store, `Schema.Db`. It holds one
map per table, keyed by id, plus the set of enrollment pairs and one id
counter per table. The counters stand for AUTO_INCREMENT but advance only when
an INSERT succeeds (see "Left out"). The model has two levels:

- **Pure route functions.** `Accounts`, `Materias`, `Tareas`, `Entregas` and
  `Comentarios` hold one function per route. Each takes the store, the caller
  admitted by `auth`, and the request fields. It returns the status, the store
  afterwards and the body (`Schema.Outcome`), or the status and the rows
  (`Schema.View`). The guards run in the order the handler runs them, and each
  contract pins every status the handler can answer to the exact inputs that
  lead to it (for `POST /login`, in a store whose e-mails are unique).
- **Imperative store.** `Api.Store` is a class with one field per table. It has
  one method per route, with the handler's early returns. Each method is proved
  to answer and to leave the store exactly as its route function says, and to
  keep the store valid.

`Server` ties the routes together: `auth` first, then the route, then runs of
requests. Over any run of requests it proves two things:

- the store stays valid: e-mails stay unique, subject codes stay unique, and
  there is at most one submission per (task, student);
- the model's id counters never hand out an id twice, and a subject's
  teacher, a user's role and a task's subject never change.

Separately, one fixed walkthrough (teacher registers and sets up a subject and
a task, a student registers, enrolls and submits, the teacher grades it) is
proved to end with the student reading the grade.

Three libraries enter as parameters:

- `bcrypt.hash` and `bcrypt.compare` become `Accounts.Bcrypt`;
- `jwt.verify` becomes the `verify` argument of `Gates.Auth`;
- `jwt.sign` becomes the claims returned in `Schema.Body.Session`.

JavaScript truthiness (`!field`, `field || null`, `field || old`) is written
out in `Values`. So is `String.prototype.split` with a one-character separator
(`JsStrings.Split`). So is `trim` (`JsStrings.Trim`), with the ECMAScript
white-space and line-terminator set.

Behaviour one might expect but the code does not implement, which the model
follows:

- `POST /entregas` does not check that the student is enrolled in the task's
  subject, and neither does `GET /materias/:id/tareas`
  (`Entregas.UnenrolledStudentCanSubmit`, `Tareas.UnenrolledStudentLosesTask`).
- A second submission for the same (task, student) is answered with 400, not
  409.
- The author of a comment whose task or subject has been deleted gets 404, not
  a successful delete. The lookup joins the comment to its task and subject.
- 404 is decided before 403 wherever the code does so.

Other behaviour the model keeps as written:

- A duplicate subject code on `PUT /materias/:id` is answered with 500. That
  route's catch has no `ER_DUP_ENTRY` branch.
- `GET /tareas/:id` answers 500 to a role other than teacher or student. No
  query text is chosen for that role, and the empty query fails.
- `PUT /users/:id` answers 500 when the caller's own row is gone.
- A grade of 0 is stored as NULL, so the submission stays pending
  (`Entregas.ZeroGradeStaysPending`).

## Model

| member | source | states |
|---|---|---|
| `JsStrings.Split` | backend/app.js:64 | `header.split(" ")` yields at least one part; exactly one iff the separator does not occur; no part contains the separator |
| `JsStrings.JoinSplit` | backend/app.js:64 | joining the parts of a split with the separator gives back the original string |
| `JsStrings.TrimStart` | backend/app.js:973 | the result is a suffix of the input, everything dropped is white space, and the result does not start with white space |
| `JsStrings.TrimEnd` | backend/app.js:973 | the result is a prefix of the input, everything dropped is white space, and the result does not end with white space |
| `JsStrings.TrimCutsOnlySpace` | backend/app.js:973 | `s.trim()` is a contiguous part of `s` with only white space cut off at either end, and it neither starts nor ends with white space |
| `JsStrings.TrimEmptyIffAllSpace` | backend/app.js:973 | `s.trim() === ''` exactly when every character of `s` is white space or a line terminator |
| `Gates.RolesPermitidos` | backend/app.js:82-89 | the request may go on exactly when there is a user and the allowed list includes its role |
| `Gates.BearerToken` | backend/app.js:64 | `header.split(" ")[1]` is defined exactly when the header contains a space, and the token it yields contains no space |
| `Gates.Auth` | backend/app.js:57-79 | a missing or empty header gives 401; a header without a token part gives 401; an admitted caller is exactly the claims `verify` returned for the header's token |
| `Gates.BearerTokenOfBearerHeader` | backend/app.js:64 | the header `Bearer <token>` yields exactly `<token>` |
| `Gates.AuthOfBearerHeader` | backend/app.js:57-79 | `Bearer <token>` authenticates as `verify(token)` when the token is non-empty and verifies, and is refused with 401 otherwise |
| `Accounts.Register` | backend/app.js:109-145 | 201 iff all four fields are present, the role is estudiante or profesor and the e-mail is unused; otherwise 400 and the store unchanged; on 201 exactly one user is added under the id the model's counter assigns, with the hashed password, and the session names that user; validity (unique e-mails) is kept |
| `Accounts.UserWithEmail` | backend/app.js:156-159 | the lookup by e-mail finds a user exactly when one has that e-mail, and what it finds has it |
| `Accounts.Login` | backend/app.js:147-182 | 400 iff a field is missing; in a store with unique e-mails, a user with that e-mail whose hash the password matches gets 200; 200 only then, with the session naming that user; wrong credentials give 401 |
| `Accounts.UpdateUser` | backend/app.js:186-254 | 403 unless the path id is the caller; 400 iff neither field is given or the e-mail belongs to another user; 500 iff the guards pass but the caller's row is gone; on 200 only the given fields of that one row change (password and role kept) and the new session carries the updated row; otherwise the store is unchanged |
| `Accounts.ApplySet` | backend/app.js:211-227 | the assembled `UPDATE ... SET` never touches password or role |
| `Accounts.ChangePassword` | backend/app.js:257-311 | 403 iff the path id is not the caller; 400 iff a password is missing or the new one is shorter than 6; then 404 iff the row is gone, 401 iff the current password does not match; 200 iff both passwords are given, the new one has at least 6 characters, the row exists and the current password matches its stored hash, and then only that row's hash changes |
| `Accounts.GetUser` | backend/app.js:314-343 | 403 for a stranger who is not a teacher, decided before the lookup; otherwise 200 with the public fields iff the row exists, 404 iff it does not |
| `Accounts.RegisterThenLogin` | backend/app.js:109-182 | a fresh registration logs in at once with the same password as the same user |
| `Accounts.ChangePasswordThenLogin` | backend/app.js:257-311 | after a password change the new password logs in as the same user |
| `Schema.TareaProfesor` | backend/app.js:664-669 | the task-to-subject JOIN finds a teacher exactly when the task and its subject exist, and then it is the subject's `profesor_id` |
| `Schema.EntregaProfesor` | backend/app.js:868-874 | the submission-task-subject JOIN finds a teacher exactly when all three rows exist, and then it is the subject's `profesor_id` |
| `Schema.ComentarioProfesor` | backend/app.js:1004-1010 | the comment-task-subject JOIN finds a teacher exactly when all three rows exist, and then it is the subject's `profesor_id` |
| `Materias.CreateMateria` | backend/app.js:347-373 | 403 for a non-teacher; for a teacher 201 iff the name is present and the code is not taken, 400 iff the name is missing or the code is taken; on 201 the caller owns the new subject, under the id the model's counter assigns |
| `Materias.ListMaterias` | backend/app.js:376-389 | exactly the subjects whose teacher row exists, unchanged |
| `Materias.GetMateria` | backend/app.js:392-410 | 200 with the row iff the subject and its teacher row exist, else 404 |
| `Materias.UpdateMateria` | backend/app.js:413-437 | 404 before 403; 500 exactly when the caller owns it and the resulting code clashes with another subject's, 200 when it does not; a falsy field keeps its old value; no subject's teacher changes; only that row changes |
| `Materias.DeleteMateria` | backend/app.js:440-459 | 404 before 403; on 200 exactly that subject is removed and nothing else (no cascade) |
| `Materias.Enroll` | backend/app.js:463-490 | 403 for a non-student; 400 without `materia_id`; 404 for an unknown subject; 400 with the set unchanged for an existing pair; otherwise exactly that pair is added |
| `Materias.Unenroll` | backend/app.js:493-508 | for a student always 200, with exactly that pair removed whether or not it was present |
| `Materias.MyMaterias` | backend/app.js:511-548 | a student sees exactly the enrolled subjects, a teacher exactly the owned ones, in both cases only where the teacher row exists; any other role gets 403 |
| `Materias.UnenrollIdempotent` | backend/app.js:493-508 | leaving twice answers and leaves the store as leaving once |
| `Materias.EnrollTwice` | backend/app.js:463-490 | a second identical enrollment is refused with 400 and changes nothing |
| `Materias.EnrollShowsInMyMaterias` | backend/app.js:463-548 | an enrollment shows in the student's subjects, and leaving removes it |
| `Tareas.CreateTarea` | backend/app.js:552-584 | 403 for a non-teacher; 400 without `materia_id` or title; 404 before 403 for the subject; on 201 the task is added under the id the model's counter assigns and belongs to the caller's subject |
| `Tareas.ListTareas` | backend/app.js:587-601 | exactly the subject's tasks, with no ownership or enrollment check |
| `Tareas.GetTarea` | backend/app.js:604-655 | a teacher gets the task iff it is in a subject they own, a student iff enrolled in its subject; otherwise 404; another role gets 500 |
| `Tareas.UpdateTarea` | backend/app.js:658-695 | 404 (task or subject missing) before 403 (caller is not the subject's teacher); on 200 falsy fields keep their old values, the subject is kept, and only that row changes |
| `Tareas.DeleteTarea` | backend/app.js:698-723 | 404 before 403; on 200 exactly that task is removed (no cascade) |
| `Tareas.UnenrolledStudentLosesTask` | backend/app.js:587-655 | after leaving a subject a student gets 404 for its task, while the subject's task list still shows it |
| `Entregas.CreateEntrega` | backend/app.js:727-758 | 403 for a non-student; 400 without `tarea_id`; 404 for an unknown task; 400 for a second submission to the same task; otherwise one ungraded submission is added, under the id the model's counter assigns |
| `Entregas.GetEntrega` | backend/app.js:761-824 | 403 for another role; a student sees only their own submission, a teacher only one in a subject they own, provided task, subject and student rows exist; else 404 |
| `Entregas.EntregasDeTarea` | backend/app.js:827-860 | 403 for a non-teacher; for a teacher 404 iff they do not own the task's subject; then exactly the task's submissions whose student row exists |
| `Entregas.Calificar` | backend/app.js:863-894 | 403 for a non-teacher; 404 if the submission (or its task or subject) is missing; 403 unless the caller owns the subject; on 200 only that submission's grade and comment change, with falsy values stored as NULL |
| `Entregas.MyEntregas` | backend/app.js:897-943 | a student sees exactly their own submissions whose task and subject exist; a teacher sees exactly the ungraded ones in owned subjects whose student exists; another role gets 403 |
| `Entregas.SubmitTwice` | backend/app.js:727-758 | a second submission for the same (task, student) gets 400 and adds no row |
| `Entregas.UnenrolledStudentCanSubmit` | backend/app.js:727-758 | a student enrolled nowhere can still submit to any existing task |
| `Entregas.GradingAgainOverwrites` | backend/app.js:863-894 | grading twice leaves exactly the second grade and comment |
| `Entregas.ZeroGradeStaysPending` | backend/app.js:863-943 | after grading, the submission is in the teacher's pending list iff the grade was falsy (0 or absent) |
| `Entregas.GradeVisibleToSubmitter` | backend/app.js:761-894 | what the owning teacher grades, the submitting student reads back as stored |
| `Comentarios.ListComentarios` | backend/app.js:947-964 | exactly the task's comments whose author row exists |
| `Comentarios.CreateComentario` | backend/app.js:967-996 | 400 iff the text is missing or blank once trimmed, decided before the task lookup; 404 for an unknown task; on 201 the untrimmed text is stored under the id the model's counter assigns, with the caller as author |
| `Comentarios.BlankIffAllSpace` | backend/app.js:973 | the text the route refuses (missing, or empty once trimmed) is exactly an absent one or one made of white space only |
| `Comentarios.BlankCommentRefused` | backend/app.js:973-975 | a comment is refused with 400 exactly when it is absent or consists only of white space |
| `Comentarios.DeleteComentario` | backend/app.js:999-1027 | 404 unless comment, task and subject all exist; then 200 iff the caller is the author or the subject's teacher (else 403), removing exactly that comment |
| `Comentarios.CreateThenDelete` | backend/app.js:967-1027 | the author can delete a fresh comment again, which restores the store but for the spent id |
| `Server.Handle` | backend/app.js:186-1027 | no error status changes the store, and every route keeps the store valid |
| `Server.Serve` | backend/app.js:57-79 | every route but `/register` answers 401 and changes nothing when `auth` refuses; no error status changes the store; validity is kept |
| `Server.RoleGateRefuses` | backend/app.js:82-89 | on a teacher-only or student-only route a caller of another role gets 403 and the store is unchanged |
| `Server.HandleKeeps` | backend/app.js:186-1027 | whoever the caller, no authenticated route moves a counter back, revives an id below any table's counter, or changes a user's role, a subject's teacher or a task's subject |
| `Server.ServeKeeps` | backend/app.js:57-1027 | the same for every request, `/register` and refusals by `auth` included: all five of the model's id counters only grow, no id below them is handed out again, and roles, subject owners and task subjects are kept |
| `Server.RunPreservesValid` | backend/app.js:109-1027 | any run of requests from a valid store ends valid: unique non-empty e-mails, unique codes, one submission per (task, student), ids below their counters |
| `Server.RunKeeps` | backend/app.js:109-1027 | over any run of requests, the model's counters hand out no id of any table twice, and the roles, subject owners and task subjects of surviving rows stay as they were |
| `Server.OwnerNeverChanges` | backend/app.js:413-437 | a subject present before and after any run has the same teacher, and a user the same role |
| `Server.GradedSubmissionScenario` | backend/app.js:109-824 | one fixed walkthrough, from the empty store: teacher registers, creates subject and task; student registers, enrolls, submits; teacher grades 85; the student reads the submission with grade 85 |
| `Api.Store.constructor` | backend/app.js:23-42 | the store starts as the empty schema, which is valid |
| `Api.Store.Register` | backend/app.js:109-145 | the guards in order, then the INSERT; answer and store as `Accounts.Register`, validity kept |
| `Api.Store.Login` | backend/app.js:147-182 | picks the row with the e-mail and checks the password; answer as `Accounts.Login` |
| `Api.Store.UpdateUser` | backend/app.js:186-254 | pushes a SET clause per present field and applies them; answer and store as `Accounts.UpdateUser` |
| `Api.Store.SetClausesApplied` | backend/app.js:211-227 | the pushed clauses set exactly the fields that are present |
| `Api.Store.ChangePassword` | backend/app.js:257-311 | answer and store as `Accounts.ChangePassword`, validity kept |
| `Api.Store.GetUser` | backend/app.js:314-343 | answer as `Accounts.GetUser` |
| `Api.Store.CreateMateria` | backend/app.js:347-373 | answer and store as `Materias.CreateMateria`, validity kept |
| `Api.Store.ListMaterias` | backend/app.js:376-389 | rows as `Materias.ListMaterias` |
| `Api.Store.GetMateria` | backend/app.js:392-410 | answer as `Materias.GetMateria` |
| `Api.Store.UpdateMateria` | backend/app.js:413-437 | answer and store as `Materias.UpdateMateria`, validity kept |
| `Api.Store.DeleteMateria` | backend/app.js:440-459 | answer and store as `Materias.DeleteMateria` |
| `Api.Store.Enroll` | backend/app.js:463-490 | answer and store as `Materias.Enroll` |
| `Api.Store.Unenroll` | backend/app.js:493-508 | answer and store as `Materias.Unenroll` |
| `Api.Store.MyMaterias` | backend/app.js:511-548 | branches on the role as the handler does; rows as `Materias.MyMaterias` |
| `Api.Store.CreateTarea` | backend/app.js:552-584 | answer and store as `Tareas.CreateTarea`, validity kept |
| `Api.Store.ListTareas` | backend/app.js:587-601 | rows as `Tareas.ListTareas` |
| `Api.Store.GetTarea` | backend/app.js:604-655 | branches on the role as the handler does; answer as `Tareas.GetTarea` |
| `Api.Store.UpdateTarea` | backend/app.js:658-695 | answer and store as `Tareas.UpdateTarea` |
| `Api.Store.DeleteTarea` | backend/app.js:698-723 | answer and store as `Tareas.DeleteTarea` |
| `Api.Store.CreateEntrega` | backend/app.js:727-758 | answer and store as `Entregas.CreateEntrega`, validity (one submission per task and student) kept |
| `Api.Store.GetEntrega` | backend/app.js:761-824 | branches on the role as the handler does; answer as `Entregas.GetEntrega` |
| `Api.Store.EntregasDeTarea` | backend/app.js:827-860 | answer as `Entregas.EntregasDeTarea` |
| `Api.Store.Calificar` | backend/app.js:863-894 | answer and store as `Entregas.Calificar` |
| `Api.Store.MyEntregas` | backend/app.js:897-943 | branches on the role as the handler does; rows as `Entregas.MyEntregas` |
| `Api.Store.ListComentarios` | backend/app.js:947-964 | rows as `Comentarios.ListComentarios` |
| `Api.Store.CreateComentario` | backend/app.js:967-996 | answer and store as `Comentarios.CreateComentario` |
| `Api.Store.DeleteComentario` | backend/app.js:999-1027 | answer and store as `Comentarios.DeleteComentario` |
| `Api.Store.Serve` | backend/app.js:57-89 | `auth` then the route's method; answer and store as `Server.Serve`, so the run lemmas hold of the object |
| `Api.Store.HandleAccountsAndSubjects` | backend/app.js:186-508 | dispatches the user, subject and enrollment routes; answer and store as `Server.Handle` |
| `Api.Store.HandleTasks` | backend/app.js:552-723 | dispatches the task routes; answer and store as `Server.Handle` |
| `Api.Store.HandleSubmissionsAndComments` | backend/app.js:727-1027 | dispatches the submission and comment routes; answer and store as `Server.Handle` |

## Left out

- HTTP plumbing is not modelled: Express setup, CORS, JSON parsing, `GET /`, `/health`, the 404 and 500 fallbacks, `app.listen` and logging. A route is a function of already-parsed fields.
- The MySQL pool and its start-up check are not modelled. Driver failures (lost connection, timeouts) and the 500 they produce are left out, except where a handler's own logic leads to 500.
- The database schema file is not part of this model. The model assumes the UNIQUE keys the handlers' `ER_DUP_ENTRY` branches imply: `materias.codigo`, (`estudiante_id`, `materia_id`) and (`tarea_id`, `estudiante_id`). It assumes no foreign keys and no cascades, so orphaned rows can exist and the JOIN-based reads drop them.
- bcrypt is a deterministic function parameter. Its random salt, and the fact that a digest differs from the plaintext, are not modelled.
- `jwt.sign` and `jwt.verify` are not modelled: signing, the secret and the seven-day expiry are replaced by the claims and by the `verify` parameter.
- `ORDER BY` on database timestamps is not modelled: lists are maps keyed by id. The timestamp columns (`fecha_creacion`, `fecha_entrega`, `creado_en`) are left out.
- Joined display columns (`profesor_nombre`, `materia_nombre`, `estudiante_nombre`, `estudiante_email`, `usuario_nombre`) are not part of the returned rows. Only the JOINs' effect on which rows appear is modelled.
- Request values are typed: path ids are integers, body fields are strings, and ids and grades are integers. The model leaves out `parseInt` on non-numeric paths, decimal or string grades, and a non-string comment whose `trim` would throw.
- Accounts.ChangePassword: the length check counts characters, where JavaScript's `.length` counts UTF-16 code units. The two differ for characters outside the Basic Multilingual Plane.
- E-mails and subject codes are compared by exact string equality, as under a binary (case- and accent-sensitive) collation. Under MySQL's default case-insensitive collation, `WHERE email = ?` and the UNIQUE index on `codigo` treat `Ana@x.com` and `ana@x.com` as equal. The model then answers 201 where the server answers 400.
- The id counters are not MySQL's AUTO_INCREMENT. They advance only on a successful INSERT, and a 400 leaves them as they are. InnoDB also uses up a value on an INSERT that fails with a duplicate key: `POST /materias` with a taken code and a second `POST /entregas` for the same task. After such a 400, the ids in later 201 bodies can be higher on the real server than in the model. Before MySQL 8.0, a restart also reset each counter to the largest id plus one, so a deleted last row's id could be handed out again. The run properties about ids (`Server.HandleKeeps`, `Server.ServeKeeps`, `Server.RunKeeps`) are about the model's counters, not the server's. No access decision depends on an id's value.
- Concurrency is not modelled: requests are answered one at a time. Interleaved async handlers (such as two registrations racing past the e-mail check) are not.
- `Server.Run` covers the routes that change the store. Reading routes and `POST /login` change nothing; their methods in `Api.Store` have no `modifies` clause.
