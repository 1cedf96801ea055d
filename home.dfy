/** pages/HomePage.tsx: the complaint box, its anonymous switch and speech dictation. */
module Home {
  import opened Strings
  import opened Types

  const DescribePrompt := "Please describe the incident."

  const AnonymousNotice := "COMPLAINT SUBMITTED: Anonymously. Logged for forensic use."
  const NamedHead := "COMPLAINT SUBMITTED: As "
  const NoticeTail := ". Logged for forensic use."

  /**
   * The confirmation shown for a submitted complaint: a fixed text in
   * anonymous mode, otherwise the user's name between a fixed head and tail.
   */
  function SubmitNotice(anonymous: bool, name: string): (r: string)
    ensures anonymous ==> r == AnonymousNotice
    ensures !anonymous ==> |r| == |NamedHead| + |name| + |NoticeTail|
    ensures !anonymous ==> r[..|NamedHead|] == NamedHead && r[|NamedHead|..|NamedHead| + |name|] == name
    ensures !anonymous ==> r[|NamedHead| + |name|..] == NoticeTail
  {
    if anonymous then AnonymousNotice else NamedHead + name + NoticeTail
  }

  /**
   * The notice names the user exactly when anonymous mode is off: an
   * anonymous notice is the same whatever the name.
   */
  lemma NoticeNamesUserUnlessAnonymous(name: string, other: string)
    ensures Contains(SubmitNotice(false, name), name)
    ensures SubmitNotice(true, name) == SubmitNotice(true, other)
  {
    assert OccursAt(SubmitNotice(false, name), name, |NamedHead|);
  }

  /** The home screen's state; `user` is the signed-in profile. */
  class HomeScreen {
    var complaint: string
    var anonymous: bool
    const user: Profile

    constructor (user: Profile)
      ensures this.user == user && complaint == "" && !anonymous
    {
      this.user := user;
      complaint := "";
      anonymous := false;
    }

    method ComplaintInput(v: string)
      modifies this`complaint
      ensures complaint == v
    {
      complaint := v;
    }

    /** Each speech result is appended after a space, so the earlier text stays as a prefix. */
    method SpeechResult(transcript: string)
      modifies this`complaint
      ensures complaint == old(complaint) + " " + transcript
      ensures complaint[..|old(complaint)|] == old(complaint)
    {
      complaint := complaint + " " + transcript;
    }

    method ToggleAnonymous()
      modifies this`anonymous
      ensures anonymous == !old(anonymous)
    {
      anonymous := !anonymous;
    }

    /**
     * `handleSubmitComplaint`: whitespace-only text is refused and kept;
     * otherwise the notice is shown and the box is cleared.
     */
    method SubmitComplaint() returns (notice: string)
      modifies this`complaint
      ensures IsBlank(old(complaint)) ==> notice == DescribePrompt && complaint == old(complaint)
      ensures !IsBlank(old(complaint)) ==> notice == SubmitNotice(anonymous, user.name) && complaint == ""
    {
      if IsBlank(complaint) {
        return DescribePrompt;
      }
      notice := SubmitNotice(anonymous, user.name);
      complaint := "";
    }
  }
}
