/** The API server as the handlers see it: a map of objects, each with a resource version, on
    which an update succeeds only when it carries the version that is stored. */
module Versioned {
  datatype Obj<+T> = Obj(version: nat, spec: T)

  /** An update in flight: the object was read at `version` with spec `base` and is sent back
      with spec `next`. The retry loop of the handlers never reads again, so an update keeps
      these four values for as long as it is retried. */
  datatype Write<+T> = Write(id: string, version: nat, base: T, next: T)

  /** The server accepts the update. */
  predicate Fresh<T>(objects: map<string, Obj<T>>, w: Write<T>) {
    w.id in objects && objects[w.id].version == w.version
  }

  /** `base` is what is stored, as long as the version has not moved on. */
  predicate Honest<T(==)>(objects: map<string, Obj<T>>, w: Write<T>) {
    Fresh(objects, w) ==> objects[w.id].spec == w.base
  }
}
