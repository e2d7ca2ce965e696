/** The access entry page (src/app/access/page.tsx): a signed-out visitor is
    sent to the sign-in page; a signed-in one is sent to the screen of the
    stored input mode, with "mouse" for a missing, unknown or unreadable one. */
module AccessPage {
  import opened Records
  import opened Text

  const ValidInputModes: seq<string> := ["eye", "mouse", "switch", "voice"]
  const DefaultInputMode: string := "mouse"
  const AccessPrefix: string := "/access/"

  /** The part of `getUserInfo`'s row the page reads; `input_mode` may be null. */
  datatype UserInfo = UserInfo(inputMode: Option<string>)

  /** `userInfo?.input_mode && validInputModes.includes(...) ? input_mode : "mouse"`;
      `userInfo` is none when the lookup found nothing or failed. */
  function ResolveInputMode(userInfo: Option<UserInfo>): (m: string)
    ensures m in ValidInputModes
    ensures userInfo.Some? && userInfo.value.inputMode.Some? && userInfo.value.inputMode.value in ValidInputModes
      ==> m == userInfo.value.inputMode.value
    ensures !(userInfo.Some? && userInfo.value.inputMode.Some? && userInfo.value.inputMode.value in ValidInputModes)
      ==> m == DefaultInputMode
  {
    if userInfo.Some? && userInfo.value.inputMode.Some? && userInfo.value.inputMode.value != []
       && userInfo.value.inputMode.value in ValidInputModes
    then userInfo.value.inputMode.value
    else DefaultInputMode
  }

  /** The redirect target of the page. */
  function AccessRedirect(user: Option<string>, userInfo: Option<UserInfo>): (target: string)
    ensures user.None? ==> target == "/sign-in"
    ensures user.Some? ==> StartsWith(target, AccessPrefix) && target[|AccessPrefix|..] == ResolveInputMode(userInfo)
  {
    if user.None? then "/sign-in"
    else
      var target := AccessPrefix + ResolveInputMode(userInfo);
      assert target[..|AccessPrefix|] == AccessPrefix;
      target
  }

  /** Every signed-in visitor lands on one of the four mode screens, and the screen of a
      stored valid mode is that mode's own. */
  lemma {:induction false} RedirectLandsOnMode(user: string, userInfo: Option<UserInfo>)
    ensures var target := AccessRedirect(Some(user), userInfo);
      exists m :: m in ValidInputModes && target == AccessPrefix + m
  {
    var target := AccessRedirect(Some(user), userInfo);
    var m := ResolveInputMode(userInfo);
    assert target == target[..|AccessPrefix|] + target[|AccessPrefix|..];
    assert target == AccessPrefix + m;
  }
}
