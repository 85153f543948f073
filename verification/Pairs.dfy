/** The text of a user id and a token joined by a colon, by which every rate limiter tells its callers apart. */
module Pairs {

  lemma {:induction false} FirstColon(s: string) returns (before: string, after: string)
    requires ':' in s
    ensures s == before + ":" + after && ':' !in before
  {
    if s[0] == ':' {
      before, after := "", s[1..];
    } else {
      assert ':' in s[1..] by {
        assert s == [s[0]] + s[1..];
      }
      before, after := FirstColon(s[1..]);
      before := [s[0]] + before;
      assert s == before + ":" + after;
    }
  }

  lemma {:induction false} SamePair(u: string, t: string, userId: string, token: string)
    requires u + ":" + t == userId + ":" + token && ':' !in userId && ':' !in token
    ensures u == userId && t == token
  {
    var text := userId + ":" + token;
    assert forall i :: 0 <= i < |userId| ==> text[i] == userId[i] && userId[i] in userId;
    assert forall i :: |userId| < i < |text| ==> text[i] == token[i - |userId| - 1] && text[i] in token;
    assert text[|u|] == ':';
    assert u == text[..|u|] && userId == text[..|userId|];
    assert t == text[|u| + 1..] && token == text[|userId| + 1..];
  }

  // Another pair makes the same text exactly when one of the ids holds a colon.
  lemma {:induction false} SharedIff(userId: string, token: string)
    ensures (exists u: string, t: string :: (u, t) != (userId, token) && u + ":" + t == userId + ":" + token)
            <==> ':' in userId || ':' in token
  {
    if ':' in userId {
      var before, after := FirstColon(userId);
      assert before + ":" + (after + ":" + token) == userId + ":" + token;
      assert |before| < |userId|;
    } else if ':' in token {
      var before, after := FirstColon(token);
      assert (userId + ":" + before) + ":" + after == userId + ":" + token;
      assert |after| < |token|;
    } else {
      forall u: string, t: string | u + ":" + t == userId + ":" + token
        ensures (u, t) == (userId, token)
      {
        SamePair(u, t, userId, token);
      }
    }
  }

  // Texts that start alike are equal exactly when what follows is.
  lemma {:induction false} SameRest(prefix: string, a: string, b: string)
    ensures prefix + a == prefix + b <==> a == b
  {
    assert (prefix + a)[|prefix|..] == a && (prefix + b)[|prefix|..] == b;
  }
}
