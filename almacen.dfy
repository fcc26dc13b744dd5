/** The browser's `localStorage`, as far as the client uses it: a string map
    of which only the key "token" is ever read or written. */
module Almacen {
  import opened Tipos

  /** The key under which the session token is stored. */
  const ClaveToken := "token"

  class Almacenamiento {
    var items: map<string, string>

    constructor (inicial: map<string, string>)
      ensures items == inicial
    {
      items := inicial;
    }

    /** `getItem(clave)`: the stored string, or null. */
    function GetItem(clave: string): (r: Option<string>)
      reads this
      ensures r.Some? <==> clave in items
      ensures r.Some? ==> r.value == items[clave]
    {
      if clave in items then Some(items[clave]) else None
    }

    /** The stored session token, or null. */
    function Token(): Option<string>
      reads this
    {
      GetItem(ClaveToken)
    }

    /** `setItem(clave, valor)` */
    method SetItem(clave: string, valor: string)
      modifies this
      ensures items == old(items)[clave := valor]
      ensures GetItem(clave) == Some(valor)
    {
      items := items[clave := valor];
    }

    /** `removeItem(clave)`: no effect when the key is absent. */
    method RemoveItem(clave: string)
      modifies this
      ensures items == old(items) - {clave}
      ensures GetItem(clave) == None
    {
      items := items - {clave};
    }
  }
}
