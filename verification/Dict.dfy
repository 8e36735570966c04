// A Go map as an object: assigning it copies the reference, and every holder sees an update.
module Dicts {

  class Dict {
    var m: map<string, string>

    constructor ()
      ensures m == map[]
    {
      m := map[];
    }

    method Put(k: string, v: string)
      modifies this
      ensures m == old(m)[k := v]
    {
      m := m[k := v];
    }
  }
}
