/**
 * The `GET /:command` handler: validate the path token, classify the number it
 * denotes, and send a status with the label. The handler keeps one local,
 * `response`, which starts as "INVALID" and is overwritten at most once by
 * the classification chain; every path, the exception path included, sends
 * its current value.
 *
 * What could raise inside the `try` block is not visible (in practice only
 * the framework's `res.status(..).send(..)`), so where the handler fails is
 * an input of the model.
 */
module CommandRoute {
  import opened Digits
  import opened Divisibility
  import opened Classifier

  /** Where, if anywhere, an exception escapes from the `try` block. */
  datatype Fault =
    | NoFault
      /** raised before anything is sent and before the label is chosen */
    | FaultBeforeSend
      /** raised by the call that sends the 400 or the 200 response */
    | FaultInSend

  /** The status code and body the handler sends. */
  datatype Response = Response(status: nat, body: string)

  /** The handler as a function of the token and the fault. */
  function Respond(command: string, fault: Fault): Response {
    if fault == FaultBeforeSend then
      Response(500, "INVALID")
    else if !ValidToken(command) then
      Response(if fault == FaultInSend then 500 else 400, "INVALID")
    else
      var chosen := Classify(Parse(command));
      Response(if fault == FaultInSend then 500 else 200, chosen)
  }

  /**
   * The handler step by step: the default, the validation, the chain of
   * `isMultiply` calls in the source's order, and the send.
   */
  method HandleCommand(command: string, fault: Fault) returns (r: Response)
    ensures r == Respond(command, fault)
  {
    var response := "INVALID";
    if fault == FaultBeforeSend {
      return Response(500, response);
    }
    var validate := ValidToken(command);
    if !validate {
      if fault == FaultInSend {
        return Response(500, response);
      }
      return Response(400, response);
    }
    ValidIsAllDigits(command);
    var target := Parse(command);
    var m := IsMultiply(target, [2, 3, 5]);
    if m {
      response := "GUROBI";
    } else {
      m := IsMultiply(target, [2, 3]);
      if m {
        response := "GURO";
      } else {
        m := IsMultiply(target, [2, 5]);
        if m {
          response := "GUBI";
        } else {
          m := IsMultiply(target, [3, 5]);
          if m {
            response := "ROBI";
          } else {
            m := IsMultiply(target, [2]);
            if m {
              response := "GU";
            } else {
              m := IsMultiply(target, [3]);
              if m {
                response := "RO";
              } else {
                m := IsMultiply(target, [5]);
                if m {
                  response := "BI";
                }
              }
            }
          }
        }
      }
    }
    if fault == FaultInSend {
      return Response(500, response);
    }
    return Response(200, response);
  }

  /**
   * Without a fault, a token is answered 400 exactly when the validator rejects
   * it, always with "INVALID", and 200 exactly when it accepts it, with the
   * label the problem statement asks for the number the token denotes, even
   * when that label is "INVALID" (a token such as "7").
   */
  lemma {:induction false} StatusFollowsValidation(command: string)
    ensures Respond(command, NoFault).status == 400 <==> !ValidToken(command)
    ensures Respond(command, NoFault).status == 200 <==> ValidToken(command)
    ensures !ValidToken(command) ==> Respond(command, NoFault).body == "INVALID"
    ensures ValidToken(command) ==>
              AllDigits(command) && Parse(command) >= 1 &&
              Respond(command, NoFault).body == ComposedLabel(Parse(command))
  {
    if ValidToken(command) {
      ParsePositive(command);
      ClassifyIsComposed(Parse(command));
    }
  }

  /** A fault, wherever it happens, turns the status into 500 and only a fault does. */
  lemma FaultIs500(command: string, fault: Fault)
    ensures Respond(command, fault).status == 500 <==> fault != NoFault
    ensures fault == FaultBeforeSend ==> Respond(command, fault).body == "INVALID"
    ensures fault == FaultInSend ==> Respond(command, fault).body == Respond(command, NoFault).body
  {
  }

  /** Every response carries one of the eight labels and one of the three statuses. */
  lemma ResponseIsClosed(command: string, fault: Fault)
    ensures Respond(command, fault).status in {400, 200, 500}
    ensures Respond(command, fault).body in Labels
  {
  }

  /**
   * Every integer >= 1, sent in its canonical decimal form, is accepted and
   * classified by its value.
   */
  lemma CanonicalRequest(n: nat)
    requires n >= 1
    ensures Respond(Show(n), NoFault) == Response(200, ComposedLabel(n))
  {
    CanonicalAccepted(n);
    ClassifyIsComposed(n);
  }

  lemma AcceptedExamples()
    ensures Respond("30", NoFault) == Response(200, "GUROBI")
    ensures Respond("6", NoFault) == Response(200, "GURO")
    ensures Respond("20", NoFault) == Response(200, "GUBI")
    ensures Respond("15", NoFault) == Response(200, "ROBI")
    ensures Respond("7", NoFault) == Response(200, "INVALID")
  {
    assert Respond("30", NoFault) == Response(200, "GUROBI") by {
      assert Parse("30") == 30 by { assert "30"[..1] == "3"; }
      ChainTests(30);
    }
    assert Respond("6", NoFault) == Response(200, "GURO") by {
      assert Parse("6") == 6 by { assert "6"[..0] == ""; }
      ChainTests(6);
    }
    assert Respond("20", NoFault) == Response(200, "GUBI") by {
      assert Parse("20") == 20 by { assert "20"[..1] == "2"; }
      ChainTests(20);
    }
    assert Respond("15", NoFault) == Response(200, "ROBI") by {
      assert Parse("15") == 15 by { assert "15"[..1] == "1"; }
      ChainTests(15);
    }
    assert Parse("7") == 7 by { assert "7"[..0] == ""; }
    ChainTests(7);
  }

  lemma RejectedExamples()
    ensures Respond("0", NoFault) == Response(400, "INVALID")
    ensures Respond("-5", NoFault) == Response(400, "INVALID")
    ensures Respond("007", NoFault) == Response(400, "INVALID")
    ensures Respond("abc", NoFault) == Response(400, "INVALID")
  {
    RejectedTokens();
  }
}
