/**
 * The IntIsPresent validator and the part of validate.Errors it uses: a
 * collection of messages grouped by key, to which a failed check adds one.
 */
module Validators {

  /** The messages recorded under `key`, none when the key is absent. */
  function MessagesOf(errors: map<string, seq<string>>, key: string): seq<string> {
    if key in errors then errors[key] else []
  }

  /** The collection after one more message under `key`: that key's list
      grows by exactly `msg` at its end and every other key is untouched. */
  function WithMessage(errors: map<string, seq<string>>, key: string, msg: string): (r: map<string, seq<string>>)
    ensures r.Keys == errors.Keys + {key}
    ensures MessagesOf(r, key) == MessagesOf(errors, key) + [msg]
    ensures forall k :: k != key ==> MessagesOf(r, k) == MessagesOf(errors, k)
  {
    errors[key := MessagesOf(errors, key) + [msg]]
  }

  /** validate.Errors: messages grouped by key. */
  class Errors {
    var Errors: map<string, seq<string>>

    /** validate.NewErrors: no messages. */
    constructor ()
      ensures Errors == map[]
    {
      Errors := map[];
    }

    /** Add appends `msg` to the messages under `key`. */
    method Add(key: string, msg: string)
      modifies this
      ensures Errors == WithMessage(old(Errors), key, msg)
    {
      Errors := WithMessage(Errors, key, msg);
    }
  }

  /** The message IntIsPresent records for the field called `name`. */
  function BlankMessage(name: string): (msg: string)
    ensures |name| <= |msg| && msg[..|name|] == name
    ensures msg[|name|..] == " can not be blank."
  {
    name + " can not be blank."
  }

  class IntIsPresent {
    var Name: string
    var Field: int

    /** IsValid: a zero Field adds the one message BlankMessage(Name) under
        the key generateKey(Name); any other Field leaves the collection as it
        was. The validator itself is not changed. generateKey is not part of
        this model and is supplied by the caller. */
    method IsValid(errors: Errors, generateKey: string -> string)
      modifies errors
      ensures Field == 0 ==> errors.Errors == WithMessage(old(errors.Errors), generateKey(Name), BlankMessage(Name))
      ensures Field != 0 ==> errors.Errors == old(errors.Errors)
      ensures Name == old(Name) && Field == old(Field)
    {
      if Field == 0 {
        errors.Add(generateKey(Name), BlankMessage(Name));
      }
    }
  }
}
