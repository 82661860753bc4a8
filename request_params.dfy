/** Scoreflex.RequestParams as the URI and decoration helpers use it: a mutable table from
    parameter name to a value or null. */
module Params {
  import opened Wrappers

  class RequestParams {
    var entries: map<string, Option<string>>

    constructor ()
      ensures entries == map[]
    {
      entries := map[];
    }

    /** has(name): the name holds an entry. */
    predicate Has(name: string)
      reads this
    {
      name in entries
    }

    /** put(name, value): the entry for `name` is `value`, whatever it was. */
    method Put(name: string, value: Option<string>)
      modifies this
      ensures entries == old(entries)[name := value]
    {
      entries := entries[name := value];
    }
  }
}
