/** The authentication and tenancy middleware (backend/middleware/auth.js).
    Each guard either passes the request on (`next()`, here `Ok`) or answers
    with an error status. Verifying the token's signature is a parameter. */
module Auth {
  import opened Wrappers
  import opened Text

  /** `usuario.rol`; any other stored value is `Otro`. A role is read from
      its stored name by `RolDe`, so an `Otro` never carries one of the four
      known names (`RolValido`). */
  datatype Rol = SuperAdmin | Administrador | Cajero | Supervisor | Otro(nombre: string)

  /** The four names the middleware and the menu compare against. */
  predicate Conocido(s: string) {
    s == "super_admin" || s == "administrador" || s == "cajero" || s == "supervisor"
  }

  predicate RolValido(r: Rol) {
    r.Otro? ==> !Conocido(r.nombre)
  }

  /** The stored name of a role. */
  function NombreDe(r: Rol): string {
    match r
    case SuperAdmin => "super_admin"
    case Administrador => "administrador"
    case Cajero => "cajero"
    case Supervisor => "supervisor"
    case Otro(nombre) => nombre
  }

  /** The role a stored name denotes: the comparisons `rol === '…'` read it this way. */
  function RolDe(s: string): (r: Rol)
    ensures RolValido(r)
    ensures NombreDe(r) == s
    ensures r.Otro? <==> !Conocido(s)
  {
    if s == "super_admin" then SuperAdmin
    else if s == "administrador" then Administrador
    else if s == "cajero" then Cajero
    else if s == "supervisor" then Supervisor
    else Otro(s)
  }

  /** Reading back the stored name of a valid role gives the role. */
  lemma RolDeNombre(r: Rol)
    requires RolValido(r)
    ensures RolDe(NombreDe(r)) == r
  {
  }

  /** The token's payload. A super_admin may have no store. */
  datatype Usuario = Usuario(id: nat, rol: Rol, tiendaId: Option<nat>)

  const SinToken := "Token no proporcionado"
  const TokenInvalido := "Token inválido"
  const SoloSuperAdmin := "Acceso denegado. Se requiere rol super_admin"
  const SoloAdmin := "Acceso denegado. Se requiere rol administrador"
  const SinAcceso := "No tienes acceso a este recurso"

  /** `req.headers.authorization?.split(' ')[1]`: the second space-separated
      word of the header, when there is one. */
  function TokenDe(authorization: Option<string>): (r: Option<string>)
    ensures authorization.None? ==> r.None?
    ensures r.Some? ==> ' ' !in r.value
    ensures authorization.Some? && ' ' !in authorization.value ==> r.None?
    ensures authorization.Some? && |SplitOn(authorization.value, ' ')| >= 2 ==>
              r == Some(SplitOn(authorization.value, ' ')[1])
    ensures authorization.Some? && |SplitOn(authorization.value, ' ')| < 2 ==> r.None?
  {
    if authorization.None? then None
    else
      var partes := SplitOn(authorization.value, ' ');
      if ' ' !in authorization.value then
        SplitWithoutSeparator(authorization.value, ' ');
        None
      else if |partes| >= 2 then Some(partes[1]) else None
  }

  /** `verificarToken`: no token (or an empty one) is 401 before the token is
      checked; a token `verifica` rejects is 401; otherwise the request goes
      on with the token's user. */
  function VerificarToken(authorization: Option<string>, verifica: string -> Option<Usuario>): (r: Outcome<Usuario>)
    ensures (TokenDe(authorization).None? || TokenDe(authorization).value == "") ==> r == Fail(401, SinToken)
    ensures r.Ok? <==> TokenDe(authorization).Some? && TokenDe(authorization).value != ""
                        && verifica(TokenDe(authorization).value).Some?
    ensures r.Ok? ==> r.value == verifica(TokenDe(authorization).value).value
    ensures r.Fail? ==> r.status == 401
  {
    var token := TokenDe(authorization);
    if token.None? || token.value == "" then Fail(401, SinToken)
    else
      match verifica(token.value)
      case None => Fail(401, TokenInvalido)
      case Some(u) => Ok(u)
  }

  /** `verificarSuperAdmin`. */
  function VerificarSuperAdmin(u: Usuario): (r: Outcome<Usuario>)
    ensures r.Ok? <==> u.rol == SuperAdmin
    ensures r.Ok? ==> r.value == u
    ensures r.Fail? ==> r == Fail(403, SoloSuperAdmin)
  {
    if u.rol != SuperAdmin then Fail(403, SoloSuperAdmin) else Ok(u)
  }

  /** `verificarAdmin`. */
  function VerificarAdmin(u: Usuario): (r: Outcome<Usuario>)
    ensures r.Ok? <==> u.rol == Administrador || u.rol == SuperAdmin
    ensures r.Ok? ==> r.value == u
    ensures r.Fail? ==> r == Fail(403, SoloAdmin)
  {
    if u.rol != Administrador && u.rol != SuperAdmin then Fail(403, SoloAdmin) else Ok(u)
  }

  /** `filtrarPorTienda`: the store `req.tienda_id` is set to. `enConsulta`
      and `enCuerpo` say whether the query string and the body carry a
      (truthy) `tienda_id`. `None` means every store. */
  function FiltrarPorTienda(u: Usuario, enConsulta: bool, enCuerpo: bool): (r: Option<nat>)
    ensures u.rol == SuperAdmin && !enConsulta && !enCuerpo ==> r.None?
    ensures !(u.rol == SuperAdmin && !enConsulta && !enCuerpo) ==> r == u.tiendaId
  {
    if u.rol == SuperAdmin && !enConsulta && !enCuerpo then None else u.tiendaId
  }

  /** `verificarAccesoTienda(tienda_id_recurso)`: a super_admin always passes;
      anyone else only on a resource of their own store. Both
      missing stores are modelled as `None`, so a user without a store passes
      on a resource without one; JavaScript's `!==` agrees when both sides are
      `null` (or both `undefined`), which is the case modelled. */
  function VerificarAccesoTienda(recurso: Option<nat>, u: Usuario): (r: Outcome<Usuario>)
    ensures r.Ok? <==> u.rol == SuperAdmin || recurso == u.tiendaId
    ensures r.Ok? ==> r.value == u
    ensures r.Fail? ==> r == Fail(403, SinAcceso)
  {
    if u.rol == SuperAdmin then Ok(u)
    else if recurso != u.tiendaId then Fail(403, SinAcceso)
    else Ok(u)
  }

  // Properties of the guards.

  /** A request without a token is refused whatever the verifier would say:
      the verifier is never consulted. */
  lemma SinTokenNoVerifica(authorization: Option<string>, v1: string -> Option<Usuario>, v2: string -> Option<Usuario>)
    requires TokenDe(authorization).None? || TokenDe(authorization).value == ""
    ensures VerificarToken(authorization, v1) == VerificarToken(authorization, v2) == Fail(401, SinToken)
  {
  }

  /** `Bearer <token>` yields the token. */
  lemma {:induction false} TokenBearer(token: string)
    requires ' ' !in token
    ensures TokenDe(Some("Bearer " + token)) == Some(token)
  {
    assert "Bearer " + token == "Bearer" + [' '] + token;
    assert ' ' !in "Bearer";
    SplitAtFirstSeparator("Bearer", token, ' ');
    SplitWithoutSeparator(token, ' ');
  }

  /** Whoever passes `verificarSuperAdmin` passes `verificarAdmin`. */
  lemma SuperAdminEsAdmin(u: Usuario)
    requires VerificarSuperAdmin(u).Ok?
    ensures VerificarAdmin(u).Ok?
  {
  }

  /** A user other than super_admin is always confined to their own store,
      and so always passes the access check on the store they were given. */
  lemma TiendaPropia(u: Usuario, enConsulta: bool, enCuerpo: bool)
    requires u.rol != SuperAdmin
    ensures FiltrarPorTienda(u, enConsulta, enCuerpo) == u.tiendaId
    ensures VerificarAccesoTienda(FiltrarPorTienda(u, enConsulta, enCuerpo), u).Ok?
  {
  }

  /** A super_admin who names a store, in the query or the body, is still
      given their own store, not the one named. */
  lemma SuperAdminConTienda(u: Usuario, enConsulta: bool, enCuerpo: bool)
    requires u.rol == SuperAdmin && (enConsulta || enCuerpo)
    ensures FiltrarPorTienda(u, enConsulta, enCuerpo) == u.tiendaId
  {
  }
}
