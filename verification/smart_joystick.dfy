/** SmartJoystick: a joystick that refuses to bind the same button twice on
    the same edge. Buttons bound on a press (onTrue, whileTrue,
    toggleOnTrue, bindButtons) share one registry and buttons bound on a
    release (onFalse, whileFalse, toggleOnFalse) another. The commands and
    triggers themselves belong to the command scheduler and are not
    modelled; only the registries are. */
module SmartJoystick {
  import opened Exceptions

  /** Which registry a binding goes into. */
  datatype Edge = OnPress | OnRelease

  /** Where bindButtons stands: how it ended and the press registry. */
  datatype BindState = BindState(outcome: Outcome, bound: set<int>)

  /** bindButtons as written: add the buttons to the press registry in
      order, stopping with an IllegalArgumentException at the first button
      already there; the buttons added before it stay added. */
  function BindAll(bound: set<int>, buttons: seq<int>): (r: BindState)
    ensures bound <= r.bound <= bound + Elements(buttons)
    ensures r.outcome == Done || r.outcome == Thrown(IllegalArgument)
    decreases |buttons|
  {
    if |buttons| == 0 then BindState(Done, bound)
    else if buttons[0] in bound then BindState(Thrown(IllegalArgument), bound)
    else BindAll(bound + {buttons[0]}, buttons[1..])
  }

  /** The buttons of a list, as a set. */
  function Elements(buttons: seq<int>): set<int>
  {
    set x | x in buttons
  }

  /** bindButtons succeeds exactly when the buttons are pairwise distinct
      and none is bound already, and it then adds all of them. */
  lemma {:induction false} BindAllSucceeds(bound: set<int>, buttons: seq<int>)
    decreases |buttons|
    ensures BindAll(bound, buttons).outcome == Done <==>
              (forall i, j :: 0 <= i < j < |buttons| ==> buttons[i] != buttons[j]) &&
              (forall i :: 0 <= i < |buttons| ==> buttons[i] !in bound)
    ensures BindAll(bound, buttons).outcome == Done ==>
              BindAll(bound, buttons).bound == bound + Elements(buttons)
  {
    if |buttons| > 0 && buttons[0] !in bound {
      var rest := buttons[1..];
      BindAllSucceeds(bound + {buttons[0]}, rest);
      assert buttons == [buttons[0]] + rest;
      assert Elements(buttons) == {buttons[0]} + Elements(rest);
      if BindAll(bound, buttons).outcome == Done {
        forall i, j | 0 <= i < j < |buttons|
          ensures buttons[i] != buttons[j]
        {
          if i > 0 {
            assert rest[i - 1] == buttons[i] && rest[j - 1] == buttons[j];
          } else {
            assert rest[j - 1] == buttons[j];
          }
        }
      }
    }
  }

  /** When bindButtons throws, the registry holds exactly the old buttons
      plus those before the offending one, and the offending one was already
      there. */
  lemma {:induction false} BindAllThrowsPartway(bound: set<int>, buttons: seq<int>)
    decreases |buttons|
    requires BindAll(bound, buttons).outcome.Thrown?
    ensures BindAll(bound, buttons).outcome == Thrown(IllegalArgument)
    ensures exists k :: 0 <= k < |buttons| &&
              BindAll(bound, buttons).bound == bound + Elements(buttons[..k]) &&
              buttons[k] in BindAll(bound, buttons).bound
  {
    var r := BindAll(bound, buttons);
    if buttons[0] in bound {
      assert buttons[..0] == [];
      assert Elements(buttons[..0]) == {};
      assert r.bound == bound + Elements(buttons[..0]) && buttons[0] in r.bound;
    } else {
      var rest := buttons[1..];
      var r' := BindAll(bound + {buttons[0]}, rest);
      assert r == r';
      BindAllThrowsPartway(bound + {buttons[0]}, rest);
      var k :| 0 <= k < |rest| &&
               r'.bound == bound + {buttons[0]} + Elements(rest[..k]) &&
               rest[k] in r'.bound;
      assert buttons[..k + 1] == [buttons[0]] + rest[..k];
      assert Elements(buttons[..k + 1]) == {buttons[0]} + Elements(rest[..k]);
      assert r.bound == bound + Elements(buttons[..k + 1]) && buttons[k + 1] in r.bound;
    }
  }

  /** The concrete case: binding 1, 2, 1 on a fresh joystick throws on the
      second 1 and leaves 1 and 2 bound. */
  lemma BindAllExample()
    ensures BindAll({}, [1, 2, 1]) == BindState(Thrown(IllegalArgument), {1, 2})
    ensures BindAll({}, [1, 2, 3]) == BindState(Done, {1, 2, 3})
  {
    assert [1, 2, 1][1..] == [2, 1] && [2, 1][1..] == [1];
    assert [1, 2, 3][1..] == [2, 3] && [2, 3][1..] == [3] && [3][1..] == [];
  }

  class SmartJoystick {
    var boundTrueButtons: set<int>
    var boundFalseButtons: set<int>

    constructor (port: int)
      ensures boundTrueButtons == {} && boundFalseButtons == {}
    {
      boundTrueButtons := {};
      boundFalseButtons := {};
    }

    function Registry(edge: Edge): set<int>
      reads this
    {
      if edge == OnPress then boundTrueButtons else boundFalseButtons
    }

    /** addOrThrow: a button already in the registry throws
        IllegalArgumentException and changes nothing; otherwise it is added.
        The other registry is never touched. */
    method AddOrThrow(button: int, edge: Edge) returns (r: Outcome)
      modifies this
      ensures r == if button in old(Registry(edge)) then Thrown(IllegalArgument) else Done
      ensures Registry(edge) == old(Registry(edge)) + {button}
      ensures edge == OnPress ==> boundFalseButtons == old(boundFalseButtons)
      ensures edge == OnRelease ==> boundTrueButtons == old(boundTrueButtons)
    {
      if button in Registry(edge) {
        return Thrown(IllegalArgument);
      }
      if edge == OnPress {
        boundTrueButtons := boundTrueButtons + {button};
      } else {
        boundFalseButtons := boundFalseButtons + {button};
      }
      return Done;
    }

    /** bindButtons: reserve several buttons on the press registry. */
    method BindButtons(buttons: seq<int>) returns (r: Outcome)
      modifies this
      ensures BindState(r, boundTrueButtons) == BindAll(old(boundTrueButtons), buttons)
      ensures boundFalseButtons == old(boundFalseButtons)
    {
      var i := 0;
      while i < |buttons|
        invariant 0 <= i <= |buttons|
        invariant BindAll(old(boundTrueButtons), buttons) == BindAll(boundTrueButtons, buttons[i..])
        invariant boundFalseButtons == old(boundFalseButtons)
      {
        assert buttons[i..][1..] == buttons[i + 1..];
        r := AddOrThrow(buttons[i], OnPress);
        if r.Thrown? {
          return;
        }
        i := i + 1;
      }
      return Done;
    }

    method OnTrue(button: int) returns (r: Outcome)
      modifies this
      ensures r == if button in old(boundTrueButtons) then Thrown(IllegalArgument) else Done
      ensures boundTrueButtons == old(boundTrueButtons) + {button} && boundFalseButtons == old(boundFalseButtons)
    {
      r := AddOrThrow(button, OnPress);
    }

    method OnFalse(button: int) returns (r: Outcome)
      modifies this
      ensures r == if button in old(boundFalseButtons) then Thrown(IllegalArgument) else Done
      ensures boundFalseButtons == old(boundFalseButtons) + {button} && boundTrueButtons == old(boundTrueButtons)
    {
      r := AddOrThrow(button, OnRelease);
    }

    method WhileTrue(button: int) returns (r: Outcome)
      modifies this
      ensures r == if button in old(boundTrueButtons) then Thrown(IllegalArgument) else Done
      ensures boundTrueButtons == old(boundTrueButtons) + {button} && boundFalseButtons == old(boundFalseButtons)
    {
      r := AddOrThrow(button, OnPress);
    }

    method WhileFalse(button: int) returns (r: Outcome)
      modifies this
      ensures r == if button in old(boundFalseButtons) then Thrown(IllegalArgument) else Done
      ensures boundFalseButtons == old(boundFalseButtons) + {button} && boundTrueButtons == old(boundTrueButtons)
    {
      r := AddOrThrow(button, OnRelease);
    }

    method ToggleOnTrue(button: int) returns (r: Outcome)
      modifies this
      ensures r == if button in old(boundTrueButtons) then Thrown(IllegalArgument) else Done
      ensures boundTrueButtons == old(boundTrueButtons) + {button} && boundFalseButtons == old(boundFalseButtons)
    {
      r := AddOrThrow(button, OnPress);
    }

    method ToggleOnFalse(button: int) returns (r: Outcome)
      modifies this
      ensures r == if button in old(boundFalseButtons) then Thrown(IllegalArgument) else Done
      ensures boundFalseButtons == old(boundFalseButtons) + {button} && boundTrueButtons == old(boundTrueButtons)
    {
      r := AddOrThrow(button, OnRelease);
    }

    /** getXInverted, with the axis reading as a parameter. */
    method GetXInverted(x: real) returns (r: real)
      ensures r == -x
    {
      r := -x;
    }

    method GetYInverted(y: real) returns (r: real)
      ensures r == -y
    {
      r := -y;
    }

    method GetZInverted(z: real) returns (r: real)
      ensures r == -z
    {
      r := -z;
    }
  }

  /** A button bound on a press can still be bound once on a release, but a
      second press binding of any kind throws. */
  method PressAndReleaseExample() returns (a: Outcome, b: Outcome, c: Outcome)
    ensures a == Done && b == Done && c == Thrown(IllegalArgument)
  {
    var stick := new SmartJoystick(0);
    a := stick.OnTrue(3);
    b := stick.OnFalse(3);
    c := stick.WhileTrue(3);
  }
}
