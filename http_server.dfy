/**
 * The request buffer of the plain HTTP handler: POST bodies are stored in a
 * fixed array of 100 slots at the position given by a counter, and GET
 * renders every filled slot followed by a newline.
 */
module RequestBuffer {
  import opened JavaLang

  const MaxMessages: int := 100

  /** The bodies rendered one after another, each followed by "\n". */
  function RenderBodies(bodies: seq<string>): (out: string)
    ensures bodies == [] ==> out == ""
  {
    if bodies == [] then "" else RenderBodies(bodies[..|bodies| - 1]) + bodies[|bodies| - 1] + "\n"
  }

  /** What the GET loop appends for the slots in index order: each non-null one and "\n". */
  function RenderSlots(slots: seq<Option<string>>): string {
    if slots == [] then ""
    else
      var last := slots[|slots| - 1];
      RenderSlots(slots[..|slots| - 1]) + if last.Some? then last.value + "\n" else ""
  }

  /** The first `|bodies|` slots hold the bodies in order and the rest are null. */
  ghost predicate Holds(slots: seq<Option<string>>, bodies: seq<string>) {
    |bodies| <= |slots|
    && (forall i :: 0 <= i < |bodies| ==> slots[i] == Some(bodies[i]))
    && (forall i :: |bodies| <= i < |slots| ==> slots[i].None?)
  }

  /** Rendering skips the null slots: a buffer holding `bodies` renders them in order. */
  lemma {:induction false} RenderHeld(slots: seq<Option<string>>, bodies: seq<string>)
    requires Holds(slots, bodies)
    ensures RenderSlots(slots) == RenderBodies(bodies)
    decreases |slots|
  {
    if slots != [] {
      var init := slots[..|slots| - 1];
      if |bodies| == |slots| {
        RenderHeld(init, bodies[..|bodies| - 1]);
      } else {
        RenderHeld(init, bodies);
      }
    }
  }

  /** The buffer fields of the handler; reading the request and writing the response are not modelled. */
  class HttpServer {
    var requestMessages: array<Option<string>>
    var storedBodyAmount: int
    ghost var bodies: seq<string>

    /** The slots hold the stored bodies in arrival order; a store past the end stores nothing. */
    ghost predicate Valid()
      reads this, requestMessages
    {
      requestMessages.Length == MaxMessages
      && 0 <= storedBodyAmount
      && |bodies| == (if storedBodyAmount < MaxMessages then storedBodyAmount else MaxMessages)
      && Holds(requestMessages[..], bodies)
    }

    constructor ()
      ensures Valid() && fresh(requestMessages)
      ensures storedBodyAmount == 0 && bodies == []
      ensures forall i :: 0 <= i < requestMessages.Length ==> requestMessages[i].None?
    {
      requestMessages := new Option<string>[MaxMessages](_ => None);
      storedBodyAmount := 0;
      bodies := [];
    }

    /**
     * `handlePOST`'s store `requestMessages[storedBodyAmount++] = body`: the
     * counter is incremented before the index is checked, so it grows even
     * when the store fails; `ok` is false when the array index is out of bounds.
     */
    method StoreBody(body: string) returns (ok: bool)
      requires Valid()
      modifies this, requestMessages
      ensures Valid() && requestMessages == old(requestMessages)
      ensures storedBodyAmount == old(storedBodyAmount) + 1
      ensures ok <==> old(storedBodyAmount) < MaxMessages
      ensures ok ==> requestMessages[old(storedBodyAmount)] == Some(body)
      ensures forall i :: 0 <= i < requestMessages.Length && i != old(storedBodyAmount) ==>
        requestMessages[i] == old(requestMessages[i])
      ensures bodies == if ok then old(bodies) + [body] else old(bodies)
    {
      var index := storedBodyAmount;
      storedBodyAmount := storedBodyAmount + 1;
      if index < requestMessages.Length {
        requestMessages[index] := Some(body);
        bodies := bodies + [body];
        ok := true;
      } else {
        ok := false;
      }
    }

    /** `handleGET`'s loop: every non-null slot in index order, each followed by "\n". */
    method Render() returns (out: string)
      requires Valid()
      ensures out == RenderBodies(bodies)
    {
      out := "";
      var i := 0;
      while i < requestMessages.Length
        invariant 0 <= i <= requestMessages.Length
        invariant out == RenderSlots(requestMessages[..i])
      {
        assert requestMessages[..i + 1][..i] == requestMessages[..i];
        var request := requestMessages[i];
        if request.Some? {
          out := out + request.value;
          out := out + "\n";
        }
        i := i + 1;
      }
      assert requestMessages[..i] == requestMessages[..];
      RenderHeld(requestMessages[..], bodies);
    }
  }
}
