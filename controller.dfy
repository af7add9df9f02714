/**
 * The review-screen controller of the add-on: a mock card, a mock reviewer
 * that records every answer it is given, and the controller that turns the
 * two drill commands into answers.
 */
module Controller {

  import opened Wrappers
  import Decimal

  /** `MockCard`: a card id and the last action recorded on the card, if any. */
  class MockCard {
    var id: int
    var lastAction: Option<string>

    /** The dataclass constructor; `last_action` defaults to none. */
    constructor (id: int, lastAction: Option<string>)
      ensures this.id == id && this.lastAction == lastAction
    {
      this.id := id;
      this.lastAction := lastAction;
    }
  }

  /** The action recorded for an answer of the given ease, `f"ease_{ease}"`. */
  function EaseAction(ease: int): (s: string)
    ensures |s| > 5 && s[..5] == "ease_"
    ensures s[5..] == Decimal.IntToString(ease)
  {
    "ease_" + Decimal.IntToString(ease)
  }

  /** Different eases leave different actions on the card. */
  lemma EaseActionInjective(a: int, b: int)
    requires EaseAction(a) == EaseAction(b)
    ensures a == b
  {
    assert EaseAction(a)[5..] == EaseAction(b)[5..];
    Decimal.IntToStringInjective(a, b);
  }

  /** `MockReviewer`: the card under review and the answers given so far, oldest first. */
  class MockReviewer {
    var card: MockCard
    var actions: seq<(string, int)>

    /**
     * The card's last action is the one the latest recorded answer left on it,
     * and none while nothing has been answered.
     */
    ghost predicate Consistent()
      reads this, card
    {
      if actions == [] then card.lastAction == None
      else card.lastAction == Some(EaseAction(actions[|actions| - 1].1))
    }

    /** A fresh reviewer holds card 42 with no action and has recorded nothing. */
    constructor ()
      ensures fresh(card)
      ensures card.id == 42 && card.lastAction == None
      ensures actions == []
      ensures Consistent()
    {
      card := new MockCard(42, None);
      actions := [];
    }

    /**
     * `_answerCard(ease)`: appends `("answer", ease)` after the earlier
     * entries and marks the same card with `"ease_<ease>"`.
     */
    method AnswerCard(ease: int)
      modifies this, card
      ensures card == old(card)
      ensures actions == old(actions) + [("answer", ease)]
      ensures card.id == old(card.id)
      ensures card.lastAction == Some(EaseAction(ease))
      ensures Consistent()
    {
      actions := actions + [("answer", ease)];
      card.lastAction := Some(EaseAction(ease));
    }
  }

  /** `ReviewerController`: dispatches drill commands to its reviewer. */
  class ReviewerController {
    const reviewer: MockReviewer

    constructor (reviewer: MockReviewer)
      ensures this.reviewer == reviewer
    {
      this.reviewer := reviewer;
    }

    /**
     * `handle_command`: `"fail_line"` answers with ease 1 and reports
     * `"failed"`, `"pass_line"` answers with ease 3 and reports `"passed"`,
     * and anything else changes nothing and reports `"ignored"`.
     */
    method HandleCommand(cmd: string) returns (r: string)
      modifies reviewer, reviewer.card
      ensures reviewer.card == old(reviewer.card) && reviewer.card.id == old(reviewer.card.id)
      ensures cmd == "fail_line" ==>
        r == "failed" && reviewer.actions == old(reviewer.actions) + [("answer", 1)] &&
        reviewer.card.lastAction == Some("ease_1")
      ensures cmd == "pass_line" ==>
        r == "passed" && reviewer.actions == old(reviewer.actions) + [("answer", 3)] &&
        reviewer.card.lastAction == Some("ease_3")
      ensures cmd != "fail_line" && cmd != "pass_line" ==>
        r == "ignored" && reviewer.actions == old(reviewer.actions) &&
        reviewer.card.lastAction == old(reviewer.card.lastAction)
      ensures old(reviewer.actions) <= reviewer.actions && |reviewer.actions| <= |old(reviewer.actions)| + 1
      ensures old(reviewer.Consistent()) ==> reviewer.Consistent()
    {
      if cmd == "fail_line" {
        reviewer.AnswerCard(1);
        assert EaseAction(1) == "ease_1";
        return "failed";
      } else if cmd == "pass_line" {
        reviewer.AnswerCard(3);
        assert EaseAction(3) == "ease_3";
        return "passed";
      }
      return "ignored";
    }
  }

  /**
   * One command sent to a fresh reviewer through a fresh controller, as the
   * controller's tests do: the reply, the recorded answers and the card's
   * last action afterwards.
   */
  method FreshReviewerCommand(cmd: string) returns (reply: string, actions: seq<(string, int)>, lastAction: Option<string>)
    ensures cmd == "fail_line" ==> reply == "failed" && actions == [("answer", 1)] && lastAction == Some("ease_1")
    ensures cmd == "pass_line" ==> reply == "passed" && actions == [("answer", 3)] && lastAction == Some("ease_3")
    ensures cmd != "fail_line" && cmd != "pass_line" ==> reply == "ignored" && actions == [] && lastAction == None
  {
    var reviewer := new MockReviewer();
    var controller := new ReviewerController(reviewer);
    reply := controller.HandleCommand(cmd);
    actions := reviewer.actions;
    lastAction := reviewer.card.lastAction;
  }
}
