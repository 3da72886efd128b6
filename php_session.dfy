/**
 * The PHP session the login pages write: `$_SESSION` as a map from key to
 * value, and the session id, which `session_regenerate_id(true)` replaces.
 */
module PhpSession {
  class Session {
    var values: map<string, string>
    /** How many times the id was regenerated; a new id is a new generation. */
    var generation: nat

    constructor (values: map<string, string>)
      ensures this.values == values && generation == 0
    {
      this.values := values;
      generation := 0;
    }

    /** `session_regenerate_id(true)`: a new id for the same values. */
    method Regenerate()
      modifies this`generation
      ensures generation == old(generation) + 1
    {
      generation := generation + 1;
    }

    /** `$_SESSION[key] = value`. */
    method Put(key: string, value: string)
      modifies this`values
      ensures values == old(values)[key := value]
    {
      values := values[key := value];
    }
  }
}
