/** The `useAuth` hook. Each instance holds its own `usuario`; on mount it
    decodes the stored token, and drops that token from storage when it does
    not decode. `login` and `logout` are its two transitions. */
module UseAuth {
  import opened Tipos
  import opened Almacen

  class Hook {
    var usuario: Option<DecodedToken>
    const almacen: Almacenamiento

    /** Mounting the hook: `usuario` starts null, then the effect runs once.
        No truthy token: nothing changes. A token that decodes: `usuario`
        becomes its identity. A token that does not: it is removed from
        storage and `usuario` stays null. */
    constructor (almacen: Almacenamiento, decode: string -> Option<DecodedToken>)
      modifies almacen
      ensures this.almacen == almacen
      ensures var t := old(almacen.Token());
              if !Truthy(t) then usuario == None && almacen.items == old(almacen.items)
              else if decode(t.value).Some? then usuario == decode(t.value) && almacen.items == old(almacen.items)
              else usuario == None && almacen.items == old(almacen.items) - {ClaveToken}
    {
      this.almacen := almacen;
      usuario := None;
      new;
      var token := almacen.GetItem(ClaveToken);
      if Truthy(token) {
        match decode(token.value) {
          case Some(d) => usuario := Some(d);
          case None => almacen.RemoveItem(ClaveToken);
        }
      }
    }

    /** `login(decodedUser)`: sets the identity; storage is not touched. */
    method Login(decodedUser: DecodedToken)
      modifies this
      ensures usuario == Some(decodedUser)
      ensures almacen.items == old(almacen.items)
    {
      usuario := Some(decodedUser);
    }

    /** `logout()`: removes the token and clears the identity, whatever the
        state before; so a second logout changes nothing. */
    method Logout()
      modifies this, almacen
      ensures usuario == None
      ensures almacen.items == old(almacen.items) - {ClaveToken}
    {
      almacen.RemoveItem(ClaveToken);
      usuario := None;
    }

    /** Two logouts in a row leave the same state as one. */
    method LogoutDosVeces()
      modifies this, almacen
      ensures usuario == None
      ensures almacen.items == old(almacen.items) - {ClaveToken}
    {
      Logout();
      ghost var unaVez := almacen.items;
      Logout();
      assert almacen.items == unaVez;
    }
  }
}
