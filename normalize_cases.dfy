/**
 * The concrete cases of the proxy's test suite for the status and priority
 * mappings, and the round trip between categories and their display names.
 * Each negative fact names a character of the keyword outside the alphabet
 * of the lower-cased name, or a pair of adjacent characters the name lacks.
 */
module NormalizeCases {
  import opened Wrappers
  import opened Strings
  import opened Normalize

  /** Reading back a status category's display name gives the same category. */
  lemma StatusNameRoundTrip(s: Status)
    ensures MapStatus(Some(StatusName(s))) == s
  {
    match s
    case Done => StatusOfDone();
    case InProgress => StatusOfInProgress();
    case InReview => StatusOfInReview();
    case ToDo => StatusOfToDo();
  }

  /** Reading back a priority's display name gives the same priority. */
  lemma PriorityNameRoundTrip(p: Priority)
    ensures MapPriority(Some(PriorityName(p))) == p
  {
    match p
    case High => PriorityOfHigh();
    case Medium => PriorityOfMedium();
    case Low => PriorityOfLow();
  }

  lemma StatusOfDone()
    ensures MapStatus(Some("Done")) == Done
  {
    assert ToLower("Done") == "done";
    DoneHasDoneKeywords();
  }

  lemma StatusOfClosed()
    ensures MapStatus(Some("Closed")) == Done
  {
    assert ToLower("Closed") == "closed";
    ClosedHasDoneKeywords();
  }

  lemma StatusOfResolved()
    ensures MapStatus(Some("Resolved")) == Done
  {
    assert ToLower("Resolved") == "resolved";
    ResolvedHasDoneKeywords();
  }

  lemma StatusOfInProgress()
    ensures MapStatus(Some("In Progress")) == InProgress
  {
    assert ToLower("In Progress") == "in progress";
    InProgressLacksDoneKeywords();
    assert IsActiveText("in progress") by {
      InProgressHasGuardedActiveKeywords();
      NotContains("in progress", "pendente", 3);
    }
  }

  lemma StatusOfInDevelopment()
    ensures MapStatus(Some("In Development")) == InProgress
  {
    assert ToLower("In Development") == "in development";
    InDevelopmentLacksDoneKeywords();
    assert IsActiveText("in development") by {
      InDevelopmentHasGuardedActiveKeywords();
      NotContainsPair("in development", "pendente", 0);
    }
  }

  lemma StatusOfCoding()
    ensures MapStatus(Some("Coding")) == InProgress
  {
    assert ToLower("Coding") == "coding";
    CodingLacksDoneKeywords();
    assert IsActiveText("coding") by {
      CodingHasActiveKeywords();
    }
  }

  lemma StatusOfInReview()
    ensures MapStatus(Some("In Review")) == InReview
  {
    assert ToLower("In Review") == "in review";
    InReviewLacksDoneKeywords();
    assert !IsActiveText("in review") by {
      InReviewLacksActiveKeywords();
      InReviewLacksGuardedActiveKeywords();
    }
    InReviewHasReviewKeywords();
  }

  lemma StatusOfQA()
    ensures MapStatus(Some("QA")) == InReview
  {
    assert ToLower("QA") == "qa";
    QALacksDoneKeywords();
    assert !IsActiveText("qa") by {
      QALacksActiveKeywords();
      QALacksGuardedActiveKeywords();
    }
    QAHasReviewKeywords();
  }

  lemma StatusOfTesting()
    ensures MapStatus(Some("Testing")) == InReview
  {
    assert ToLower("Testing") == "testing";
    TestingLacksDoneKeywords();
    assert !IsActiveText("testing") by {
      TestingLacksActiveKeywords();
      TestingLacksGuardedActiveKeywords();
    }
    TestingHasReviewKeywords();
  }

  lemma StatusOfToDo()
    ensures MapStatus(Some("To Do")) == ToDo
  {
    assert ToLower("To Do") == "to do";
    ToDoLacksDoneKeywords();
    assert !IsActiveText("to do") by {
      ToDoLacksActiveKeywords();
      ToDoLacksGuardedActiveKeywords();
    }
    ToDoLacksReviewKeywords();
  }

  lemma StatusOfBacklog()
    ensures MapStatus(Some("Backlog")) == ToDo
  {
    assert ToLower("Backlog") == "backlog";
    BacklogLacksDoneKeywords();
    assert !IsActiveText("backlog") by {
      BacklogLacksActiveKeywords();
      BacklogLacksGuardedActiveKeywords();
    }
    BacklogLacksReviewKeywords();
  }

  lemma StatusOfEmDesenvolvimentoPendente()
    ensures MapStatus(Some("em desenvolvimento pendente")) == InProgress
  {
    assert ToLower("em desenvolvimento pendente") == "em desenvolvimento pendente";
    EmDesenvolvimentoPendenteLacksDoneKeywords();
    assert IsActiveText("em desenvolvimento pendente") by {
      EmDesenvolvimentoPendenteHasActiveKeywords();
    }
  }

  lemma StatusOfDevPendente()
    ensures MapStatus(Some("dev pendente")) == ToDo
  {
    assert ToLower("dev pendente") == "dev pendente";
    DevPendenteLacksDoneKeywords();
    assert !IsActiveText("dev pendente") by {
      DevPendenteLacksActiveKeywords();
      ContainsAt("dev pendente", "pendente", 4);
    }
    DevPendenteLacksReviewKeywords();
  }

  lemma PriorityOfHigh()
    ensures MapPriority(Some("High")) == High
  {
    assert ToLower("High") == "high";
    HighHasHighKeywords();
  }

  lemma PriorityOfCritical()
    ensures MapPriority(Some("Critical")) == High
  {
    assert ToLower("Critical") == "critical";
    CriticalHasHighKeywords();
  }

  lemma PriorityOfBlocker()
    ensures MapPriority(Some("Blocker")) == High
  {
    assert ToLower("Blocker") == "blocker";
    BlockerHasHighKeywords();
  }

  lemma PriorityOfLow()
    ensures MapPriority(Some("Low")) == Low
  {
    assert ToLower("Low") == "low";
    LowLacksHighKeywords();
    LowHasLowKeywords();
  }

  lemma PriorityOfTrivial()
    ensures MapPriority(Some("Trivial")) == Low
  {
    assert ToLower("Trivial") == "trivial";
    TrivialLacksHighKeywords();
    TrivialHasLowKeywords();
  }

  lemma PriorityOfMedium()
    ensures MapPriority(Some("Medium")) == Medium
  {
    assert ToLower("Medium") == "medium";
    MediumLacksHighKeywords();
    MediumLacksLowKeywords();
  }

  // Keyword groups that a lower-cased name does or does not contain.

  lemma DoneHasDoneKeywords()
    ensures ContainsAny("done", DoneKeywords)
  {
    ContainsAt("done", "done", 0);
    assert DoneKeywords[0] == "done";
  }

  lemma ClosedHasDoneKeywords()
    ensures ContainsAny("closed", DoneKeywords)
  {
    ContainsAt("closed", "closed", 0);
    assert DoneKeywords[1] == "closed";
  }

  lemma ResolvedHasDoneKeywords()
    ensures ContainsAny("resolved", DoneKeywords)
  {
    ContainsAt("resolved", "resolved", 0);
    assert DoneKeywords[2] == "resolved";
  }

  lemma InProgressLacksDoneKeywords()
    ensures !ContainsAny("in progress", DoneKeywords)
  {
    InProgressAlphabet();
    NotContainsOutside("in progress", "done", 0, {' ', 'e', 'g', 'i', 'n', 'o', 'p', 'r', 's'});
    NotContainsOutside("in progress", "closed", 0, {' ', 'e', 'g', 'i', 'n', 'o', 'p', 'r', 's'});
    NotContainsOutside("in progress", "resolved", 4, {' ', 'e', 'g', 'i', 'n', 'o', 'p', 'r', 's'});
    NotContainsOutside("in progress", "concluído", 0, {' ', 'e', 'g', 'i', 'n', 'o', 'p', 'r', 's'});
    NotContainsOutside("in progress", "concluida", 0, {' ', 'e', 'g', 'i', 'n', 'o', 'p', 'r', 's'});
    NotContainsOutside("in progress", "finalizado", 0, {' ', 'e', 'g', 'i', 'n', 'o', 'p', 'r', 's'});
    NotContainsOutside("in progress", "completo", 0, {' ', 'e', 'g', 'i', 'n', 'o', 'p', 'r', 's'});
  }

  lemma InProgressHasGuardedActiveKeywords()
    ensures ContainsAny("in progress", GuardedActiveKeywords)
  {
    ContainsAt("in progress", "progress", 3);
    assert GuardedActiveKeywords[0] == "progress";
  }

  lemma InDevelopmentLacksDoneKeywords()
    ensures !ContainsAny("in development", DoneKeywords)
  {
    InDevelopmentAlphabet();
    NotContainsPair("in development", "done", 0);
    NotContainsOutside("in development", "closed", 0, {' ', 'd', 'e', 'i', 'l', 'm', 'n', 'o', 'p', 't', 'v'});
    NotContainsOutside("in development", "resolved", 0, {' ', 'd', 'e', 'i', 'l', 'm', 'n', 'o', 'p', 't', 'v'});
    NotContainsOutside("in development", "concluído", 0, {' ', 'd', 'e', 'i', 'l', 'm', 'n', 'o', 'p', 't', 'v'});
    NotContainsOutside("in development", "concluida", 0, {' ', 'd', 'e', 'i', 'l', 'm', 'n', 'o', 'p', 't', 'v'});
    NotContainsOutside("in development", "finalizado", 0, {' ', 'd', 'e', 'i', 'l', 'm', 'n', 'o', 'p', 't', 'v'});
    NotContainsOutside("in development", "completo", 0, {' ', 'd', 'e', 'i', 'l', 'm', 'n', 'o', 'p', 't', 'v'});
  }

  lemma InDevelopmentHasGuardedActiveKeywords()
    ensures ContainsAny("in development", GuardedActiveKeywords)
  {
    ContainsAt("in development", "dev", 3);
    assert GuardedActiveKeywords[1] == "dev";
  }

  lemma CodingLacksDoneKeywords()
    ensures !ContainsAny("coding", DoneKeywords)
  {
    CodingAlphabet();
    NotContainsOutside("coding", "done", 3, {'c', 'd', 'g', 'i', 'n', 'o'});
    NotContainsOutside("coding", "closed", 1, {'c', 'd', 'g', 'i', 'n', 'o'});
    NotContainsOutside("coding", "resolved", 0, {'c', 'd', 'g', 'i', 'n', 'o'});
    NotContainsOutside("coding", "concluído", 4, {'c', 'd', 'g', 'i', 'n', 'o'});
    NotContainsOutside("coding", "concluida", 4, {'c', 'd', 'g', 'i', 'n', 'o'});
    NotContainsOutside("coding", "finalizado", 0, {'c', 'd', 'g', 'i', 'n', 'o'});
    NotContainsOutside("coding", "completo", 2, {'c', 'd', 'g', 'i', 'n', 'o'});
  }

  lemma CodingHasActiveKeywords()
    ensures ContainsAny("coding", ActiveKeywords)
  {
    ContainsAt("coding", "coding", 0);
    assert ActiveKeywords[6] == "coding";
  }

  lemma InReviewLacksDoneKeywords()
    ensures !ContainsAny("in review", DoneKeywords)
  {
    InReviewAlphabet();
    NotContainsOutside("in review", "done", 0, {' ', 'e', 'i', 'n', 'r', 'v', 'w'});
    NotContainsOutside("in review", "closed", 0, {' ', 'e', 'i', 'n', 'r', 'v', 'w'});
    NotContainsOutside("in review", "resolved", 2, {' ', 'e', 'i', 'n', 'r', 'v', 'w'});
    NotContainsOutside("in review", "concluído", 0, {' ', 'e', 'i', 'n', 'r', 'v', 'w'});
    NotContainsOutside("in review", "concluida", 0, {' ', 'e', 'i', 'n', 'r', 'v', 'w'});
    NotContainsOutside("in review", "finalizado", 0, {' ', 'e', 'i', 'n', 'r', 'v', 'w'});
    NotContainsOutside("in review", "completo", 0, {' ', 'e', 'i', 'n', 'r', 'v', 'w'});
  }

  lemma InReviewLacksActiveKeywords()
    ensures !ContainsAny("in review", ActiveKeywords)
  {
    InReviewAlphabet();
    NotContainsOutside("in review", "em andamento", 1, {' ', 'e', 'i', 'n', 'r', 'v', 'w'});
    NotContainsOutside("in review", "em desenvolvimento", 1, {' ', 'e', 'i', 'n', 'r', 'v', 'w'});
    NotContainsOutside("in review", "fazendo", 0, {' ', 'e', 'i', 'n', 'r', 'v', 'w'});
    NotContainsOutside("in review", "doing", 0, {' ', 'e', 'i', 'n', 'r', 'v', 'w'});
    NotContainsOutside("in review", "working", 1, {' ', 'e', 'i', 'n', 'r', 'v', 'w'});
    NotContainsOutside("in review", "desenvolvimento", 0, {' ', 'e', 'i', 'n', 'r', 'v', 'w'});
    NotContainsOutside("in review", "coding", 0, {' ', 'e', 'i', 'n', 'r', 'v', 'w'});
  }

  lemma InReviewLacksGuardedActiveKeywords()
    ensures !ContainsAny("in review", GuardedActiveKeywords)
  {
    InReviewAlphabet();
    NotContainsOutside("in review", "progress", 0, {' ', 'e', 'i', 'n', 'r', 'v', 'w'});
    NotContainsOutside("in review", "dev", 0, {' ', 'e', 'i', 'n', 'r', 'v', 'w'});
  }

  lemma InReviewHasReviewKeywords()
    ensures ContainsAny("in review", ReviewKeywords)
  {
    ContainsAt("in review", "review", 3);
    assert ReviewKeywords[0] == "review";
  }

  lemma QALacksDoneKeywords()
    ensures !ContainsAny("qa", DoneKeywords)
  {
    QAAlphabet();
    NotContainsOutside("qa", "done", 0, {'a', 'q'});
    NotContainsOutside("qa", "closed", 0, {'a', 'q'});
    NotContainsOutside("qa", "resolved", 0, {'a', 'q'});
    NotContainsOutside("qa", "concluído", 0, {'a', 'q'});
    NotContainsOutside("qa", "concluida", 0, {'a', 'q'});
    NotContainsOutside("qa", "finalizado", 0, {'a', 'q'});
    NotContainsOutside("qa", "completo", 0, {'a', 'q'});
  }

  lemma QALacksActiveKeywords()
    ensures !ContainsAny("qa", ActiveKeywords)
  {
    QAAlphabet();
    NotContainsOutside("qa", "em andamento", 0, {'a', 'q'});
    NotContainsOutside("qa", "em desenvolvimento", 0, {'a', 'q'});
    NotContainsOutside("qa", "fazendo", 0, {'a', 'q'});
    NotContainsOutside("qa", "doing", 0, {'a', 'q'});
    NotContainsOutside("qa", "working", 0, {'a', 'q'});
    NotContainsOutside("qa", "desenvolvimento", 0, {'a', 'q'});
    NotContainsOutside("qa", "coding", 0, {'a', 'q'});
  }

  lemma QALacksGuardedActiveKeywords()
    ensures !ContainsAny("qa", GuardedActiveKeywords)
  {
    QAAlphabet();
    NotContainsOutside("qa", "progress", 0, {'a', 'q'});
    NotContainsOutside("qa", "dev", 0, {'a', 'q'});
  }

  lemma QAHasReviewKeywords()
    ensures ContainsAny("qa", ReviewKeywords)
  {
    ContainsAt("qa", "qa", 0);
    assert ReviewKeywords[5] == "qa";
  }

  lemma TestingLacksDoneKeywords()
    ensures !ContainsAny("testing", DoneKeywords)
  {
    TestingAlphabet();
    NotContainsOutside("testing", "done", 0, {'e', 'g', 'i', 'n', 's', 't'});
    NotContainsOutside("testing", "closed", 0, {'e', 'g', 'i', 'n', 's', 't'});
    NotContainsOutside("testing", "resolved", 0, {'e', 'g', 'i', 'n', 's', 't'});
    NotContainsOutside("testing", "concluído", 0, {'e', 'g', 'i', 'n', 's', 't'});
    NotContainsOutside("testing", "concluida", 0, {'e', 'g', 'i', 'n', 's', 't'});
    NotContainsOutside("testing", "finalizado", 0, {'e', 'g', 'i', 'n', 's', 't'});
    NotContainsOutside("testing", "completo", 0, {'e', 'g', 'i', 'n', 's', 't'});
  }

  lemma TestingLacksActiveKeywords()
    ensures !ContainsAny("testing", ActiveKeywords)
  {
    TestingAlphabet();
    NotContainsOutside("testing", "em andamento", 1, {'e', 'g', 'i', 'n', 's', 't'});
    NotContainsOutside("testing", "em desenvolvimento", 1, {'e', 'g', 'i', 'n', 's', 't'});
    NotContainsOutside("testing", "fazendo", 0, {'e', 'g', 'i', 'n', 's', 't'});
    NotContainsOutside("testing", "doing", 0, {'e', 'g', 'i', 'n', 's', 't'});
    NotContainsOutside("testing", "working", 0, {'e', 'g', 'i', 'n', 's', 't'});
    NotContainsOutside("testing", "desenvolvimento", 0, {'e', 'g', 'i', 'n', 's', 't'});
    NotContainsOutside("testing", "coding", 0, {'e', 'g', 'i', 'n', 's', 't'});
  }

  lemma TestingLacksGuardedActiveKeywords()
    ensures !ContainsAny("testing", GuardedActiveKeywords)
  {
    TestingAlphabet();
    NotContainsOutside("testing", "progress", 0, {'e', 'g', 'i', 'n', 's', 't'});
    NotContainsOutside("testing", "dev", 0, {'e', 'g', 'i', 'n', 's', 't'});
  }

  lemma TestingHasReviewKeywords()
    ensures ContainsAny("testing", ReviewKeywords)
  {
    ContainsAt("testing", "test", 0);
    assert ReviewKeywords[6] == "test";
  }

  lemma ToDoLacksDoneKeywords()
    ensures !ContainsAny("to do", DoneKeywords)
  {
    ToDoAlphabet();
    NotContainsOutside("to do", "done", 2, {' ', 'd', 'o', 't'});
    NotContainsOutside("to do", "closed", 0, {' ', 'd', 'o', 't'});
    NotContainsOutside("to do", "resolved", 0, {' ', 'd', 'o', 't'});
    NotContainsOutside("to do", "concluído", 0, {' ', 'd', 'o', 't'});
    NotContainsOutside("to do", "concluida", 0, {' ', 'd', 'o', 't'});
    NotContainsOutside("to do", "finalizado", 0, {' ', 'd', 'o', 't'});
    NotContainsOutside("to do", "completo", 0, {' ', 'd', 'o', 't'});
  }

  lemma ToDoLacksActiveKeywords()
    ensures !ContainsAny("to do", ActiveKeywords)
  {
    ToDoAlphabet();
    NotContainsOutside("to do", "em andamento", 0, {' ', 'd', 'o', 't'});
    NotContainsOutside("to do", "em desenvolvimento", 0, {' ', 'd', 'o', 't'});
    NotContainsOutside("to do", "fazendo", 0, {' ', 'd', 'o', 't'});
    NotContainsOutside("to do", "doing", 2, {' ', 'd', 'o', 't'});
    NotContainsOutside("to do", "working", 0, {' ', 'd', 'o', 't'});
    NotContainsOutside("to do", "desenvolvimento", 1, {' ', 'd', 'o', 't'});
    NotContainsOutside("to do", "coding", 0, {' ', 'd', 'o', 't'});
  }

  lemma ToDoLacksGuardedActiveKeywords()
    ensures !ContainsAny("to do", GuardedActiveKeywords)
  {
    ToDoAlphabet();
    NotContainsOutside("to do", "progress", 0, {' ', 'd', 'o', 't'});
    NotContainsOutside("to do", "dev", 1, {' ', 'd', 'o', 't'});
  }

  lemma ToDoLacksReviewKeywords()
    ensures !ContainsAny("to do", ReviewKeywords)
  {
    ToDoAlphabet();
    NotContainsOutside("to do", "review", 0, {' ', 'd', 'o', 't'});
    NotContainsOutside("to do", "revisão", 0, {' ', 'd', 'o', 't'});
    NotContainsOutside("to do", "revisao", 0, {' ', 'd', 'o', 't'});
    NotContainsOutside("to do", "em revisão", 0, {' ', 'd', 'o', 't'});
    NotContainsOutside("to do", "em revisao", 0, {' ', 'd', 'o', 't'});
    NotContainsOutside("to do", "qa", 0, {' ', 'd', 'o', 't'});
    NotContainsOutside("to do", "test", 1, {' ', 'd', 'o', 't'});
    NotContainsOutside("to do", "homologação", 0, {' ', 'd', 'o', 't'});
    NotContainsOutside("to do", "homologacao", 0, {' ', 'd', 'o', 't'});
  }

  lemma BacklogLacksDoneKeywords()
    ensures !ContainsAny("backlog", DoneKeywords)
  {
    BacklogAlphabet();
    NotContainsOutside("backlog", "done", 0, {'a', 'b', 'c', 'g', 'k', 'l', 'o'});
    NotContainsOutside("backlog", "closed", 3, {'a', 'b', 'c', 'g', 'k', 'l', 'o'});
    NotContainsOutside("backlog", "resolved", 0, {'a', 'b', 'c', 'g', 'k', 'l', 'o'});
    NotContainsOutside("backlog", "concluído", 2, {'a', 'b', 'c', 'g', 'k', 'l', 'o'});
    NotContainsOutside("backlog", "concluida", 2, {'a', 'b', 'c', 'g', 'k', 'l', 'o'});
    NotContainsOutside("backlog", "finalizado", 0, {'a', 'b', 'c', 'g', 'k', 'l', 'o'});
    NotContainsOutside("backlog", "completo", 2, {'a', 'b', 'c', 'g', 'k', 'l', 'o'});
  }

  lemma BacklogLacksActiveKeywords()
    ensures !ContainsAny("backlog", ActiveKeywords)
  {
    BacklogAlphabet();
    NotContainsOutside("backlog", "em andamento", 0, {'a', 'b', 'c', 'g', 'k', 'l', 'o'});
    NotContainsOutside("backlog", "em desenvolvimento", 0, {'a', 'b', 'c', 'g', 'k', 'l', 'o'});
    NotContainsOutside("backlog", "fazendo", 0, {'a', 'b', 'c', 'g', 'k', 'l', 'o'});
    NotContainsOutside("backlog", "doing", 0, {'a', 'b', 'c', 'g', 'k', 'l', 'o'});
    NotContainsOutside("backlog", "working", 0, {'a', 'b', 'c', 'g', 'k', 'l', 'o'});
    NotContainsOutside("backlog", "desenvolvimento", 0, {'a', 'b', 'c', 'g', 'k', 'l', 'o'});
    NotContainsOutside("backlog", "coding", 2, {'a', 'b', 'c', 'g', 'k', 'l', 'o'});
  }

  lemma BacklogLacksGuardedActiveKeywords()
    ensures !ContainsAny("backlog", GuardedActiveKeywords)
  {
    BacklogAlphabet();
    NotContainsOutside("backlog", "progress", 0, {'a', 'b', 'c', 'g', 'k', 'l', 'o'});
    NotContainsOutside("backlog", "dev", 0, {'a', 'b', 'c', 'g', 'k', 'l', 'o'});
  }

  lemma BacklogLacksReviewKeywords()
    ensures !ContainsAny("backlog", ReviewKeywords)
  {
    BacklogAlphabet();
    NotContainsOutside("backlog", "review", 0, {'a', 'b', 'c', 'g', 'k', 'l', 'o'});
    NotContainsOutside("backlog", "revisão", 0, {'a', 'b', 'c', 'g', 'k', 'l', 'o'});
    NotContainsOutside("backlog", "revisao", 0, {'a', 'b', 'c', 'g', 'k', 'l', 'o'});
    NotContainsOutside("backlog", "em revisão", 0, {'a', 'b', 'c', 'g', 'k', 'l', 'o'});
    NotContainsOutside("backlog", "em revisao", 0, {'a', 'b', 'c', 'g', 'k', 'l', 'o'});
    NotContainsOutside("backlog", "qa", 0, {'a', 'b', 'c', 'g', 'k', 'l', 'o'});
    NotContainsOutside("backlog", "test", 0, {'a', 'b', 'c', 'g', 'k', 'l', 'o'});
    NotContainsOutside("backlog", "homologação", 0, {'a', 'b', 'c', 'g', 'k', 'l', 'o'});
    NotContainsOutside("backlog", "homologacao", 0, {'a', 'b', 'c', 'g', 'k', 'l', 'o'});
  }

  lemma EmDesenvolvimentoPendenteLacksDoneKeywords()
    ensures !ContainsAny("em desenvolvimento pendente", DoneKeywords)
  {
    EmDesenvolvimentoPendenteAlphabet();
    NotContainsPair("em desenvolvimento pendente", "done", 0);
    NotContainsOutside("em desenvolvimento pendente", "closed", 0, {' ', 'd', 'e', 'i', 'l', 'm', 'n', 'o', 'p', 's', 't', 'v'});
    NotContainsOutside("em desenvolvimento pendente", "resolved", 0, {' ', 'd', 'e', 'i', 'l', 'm', 'n', 'o', 'p', 's', 't', 'v'});
    NotContainsOutside("em desenvolvimento pendente", "concluído", 0, {' ', 'd', 'e', 'i', 'l', 'm', 'n', 'o', 'p', 's', 't', 'v'});
    NotContainsOutside("em desenvolvimento pendente", "concluida", 0, {' ', 'd', 'e', 'i', 'l', 'm', 'n', 'o', 'p', 's', 't', 'v'});
    NotContainsOutside("em desenvolvimento pendente", "finalizado", 0, {' ', 'd', 'e', 'i', 'l', 'm', 'n', 'o', 'p', 's', 't', 'v'});
    NotContainsOutside("em desenvolvimento pendente", "completo", 0, {' ', 'd', 'e', 'i', 'l', 'm', 'n', 'o', 'p', 's', 't', 'v'});
  }

  lemma EmDesenvolvimentoPendenteHasActiveKeywords()
    ensures ContainsAny("em desenvolvimento pendente", ActiveKeywords)
  {
    ContainsAt("em desenvolvimento pendente", "em desenvolvimento", 0);
    assert ActiveKeywords[1] == "em desenvolvimento";
  }

  lemma DevPendenteLacksDoneKeywords()
    ensures !ContainsAny("dev pendente", DoneKeywords)
  {
    DevPendenteAlphabet();
    NotContainsOutside("dev pendente", "done", 1, {' ', 'd', 'e', 'n', 'p', 't', 'v'});
    NotContainsOutside("dev pendente", "closed", 0, {' ', 'd', 'e', 'n', 'p', 't', 'v'});
    NotContainsOutside("dev pendente", "resolved", 0, {' ', 'd', 'e', 'n', 'p', 't', 'v'});
    NotContainsOutside("dev pendente", "concluído", 0, {' ', 'd', 'e', 'n', 'p', 't', 'v'});
    NotContainsOutside("dev pendente", "concluida", 0, {' ', 'd', 'e', 'n', 'p', 't', 'v'});
    NotContainsOutside("dev pendente", "finalizado", 0, {' ', 'd', 'e', 'n', 'p', 't', 'v'});
    NotContainsOutside("dev pendente", "completo", 0, {' ', 'd', 'e', 'n', 'p', 't', 'v'});
  }

  lemma DevPendenteLacksActiveKeywords()
    ensures !ContainsAny("dev pendente", ActiveKeywords)
  {
    DevPendenteAlphabet();
    NotContainsOutside("dev pendente", "em andamento", 1, {' ', 'd', 'e', 'n', 'p', 't', 'v'});
    NotContainsOutside("dev pendente", "em desenvolvimento", 1, {' ', 'd', 'e', 'n', 'p', 't', 'v'});
    NotContainsOutside("dev pendente", "fazendo", 0, {' ', 'd', 'e', 'n', 'p', 't', 'v'});
    NotContainsOutside("dev pendente", "doing", 1, {' ', 'd', 'e', 'n', 'p', 't', 'v'});
    NotContainsOutside("dev pendente", "working", 0, {' ', 'd', 'e', 'n', 'p', 't', 'v'});
    NotContainsOutside("dev pendente", "desenvolvimento", 2, {' ', 'd', 'e', 'n', 'p', 't', 'v'});
    NotContainsOutside("dev pendente", "coding", 0, {' ', 'd', 'e', 'n', 'p', 't', 'v'});
  }

  lemma DevPendenteLacksReviewKeywords()
    ensures !ContainsAny("dev pendente", ReviewKeywords)
  {
    DevPendenteAlphabet();
    NotContainsOutside("dev pendente", "review", 0, {' ', 'd', 'e', 'n', 'p', 't', 'v'});
    NotContainsOutside("dev pendente", "revisão", 0, {' ', 'd', 'e', 'n', 'p', 't', 'v'});
    NotContainsOutside("dev pendente", "revisao", 0, {' ', 'd', 'e', 'n', 'p', 't', 'v'});
    NotContainsOutside("dev pendente", "em revisão", 1, {' ', 'd', 'e', 'n', 'p', 't', 'v'});
    NotContainsOutside("dev pendente", "em revisao", 1, {' ', 'd', 'e', 'n', 'p', 't', 'v'});
    NotContainsOutside("dev pendente", "qa", 0, {' ', 'd', 'e', 'n', 'p', 't', 'v'});
    NotContainsOutside("dev pendente", "test", 2, {' ', 'd', 'e', 'n', 'p', 't', 'v'});
    NotContainsOutside("dev pendente", "homologação", 0, {' ', 'd', 'e', 'n', 'p', 't', 'v'});
    NotContainsOutside("dev pendente", "homologacao", 0, {' ', 'd', 'e', 'n', 'p', 't', 'v'});
  }

  lemma HighHasHighKeywords()
    ensures ContainsAny("high", HighKeywords)
  {
    ContainsAt("high", "high", 0);
    assert HighKeywords[0] == "high";
  }

  lemma CriticalHasHighKeywords()
    ensures ContainsAny("critical", HighKeywords)
  {
    ContainsAt("critical", "critical", 0);
    assert HighKeywords[1] == "critical";
  }

  lemma BlockerHasHighKeywords()
    ensures ContainsAny("blocker", HighKeywords)
  {
    ContainsAt("blocker", "blocker", 0);
    assert HighKeywords[2] == "blocker";
  }

  lemma LowLacksHighKeywords()
    ensures !ContainsAny("low", HighKeywords)
  {
    LowAlphabet();
    NotContainsOutside("low", "high", 0, {'l', 'o', 'w'});
    NotContainsOutside("low", "critical", 0, {'l', 'o', 'w'});
    NotContainsOutside("low", "blocker", 0, {'l', 'o', 'w'});
  }

  lemma LowHasLowKeywords()
    ensures ContainsAny("low", LowKeywords)
  {
    ContainsAt("low", "low", 0);
    assert LowKeywords[0] == "low";
  }

  lemma TrivialLacksHighKeywords()
    ensures !ContainsAny("trivial", HighKeywords)
  {
    TrivialAlphabet();
    NotContainsOutside("trivial", "high", 0, {'a', 'i', 'l', 'r', 't', 'v'});
    NotContainsOutside("trivial", "critical", 0, {'a', 'i', 'l', 'r', 't', 'v'});
    NotContainsOutside("trivial", "blocker", 0, {'a', 'i', 'l', 'r', 't', 'v'});
  }

  lemma TrivialHasLowKeywords()
    ensures ContainsAny("trivial", LowKeywords)
  {
    ContainsAt("trivial", "trivial", 0);
    assert LowKeywords[1] == "trivial";
  }

  lemma MediumLacksHighKeywords()
    ensures !ContainsAny("medium", HighKeywords)
  {
    MediumAlphabet();
    NotContainsOutside("medium", "high", 0, {'d', 'e', 'i', 'm', 'u'});
    NotContainsOutside("medium", "critical", 0, {'d', 'e', 'i', 'm', 'u'});
    NotContainsOutside("medium", "blocker", 0, {'d', 'e', 'i', 'm', 'u'});
  }

  lemma MediumLacksLowKeywords()
    ensures !ContainsAny("medium", LowKeywords)
  {
    MediumAlphabet();
    NotContainsOutside("medium", "low", 0, {'d', 'e', 'i', 'm', 'u'});
    NotContainsOutside("medium", "trivial", 0, {'d', 'e', 'i', 'm', 'u'});
  }

  // The characters each lower-cased name is made of.

  lemma InProgressAlphabet()
    ensures Within("in progress", {' ', 'e', 'g', 'i', 'n', 'o', 'p', 'r', 's'})
  {
  }

  lemma InDevelopmentAlphabet()
    ensures Within("in development", {' ', 'd', 'e', 'i', 'l', 'm', 'n', 'o', 'p', 't', 'v'})
  {
  }

  lemma CodingAlphabet()
    ensures Within("coding", {'c', 'd', 'g', 'i', 'n', 'o'})
  {
  }

  lemma InReviewAlphabet()
    ensures Within("in review", {' ', 'e', 'i', 'n', 'r', 'v', 'w'})
  {
  }

  lemma QAAlphabet()
    ensures Within("qa", {'a', 'q'})
  {
  }

  lemma TestingAlphabet()
    ensures Within("testing", {'e', 'g', 'i', 'n', 's', 't'})
  {
  }

  lemma ToDoAlphabet()
    ensures Within("to do", {' ', 'd', 'o', 't'})
  {
  }

  lemma BacklogAlphabet()
    ensures Within("backlog", {'a', 'b', 'c', 'g', 'k', 'l', 'o'})
  {
  }

  lemma EmDesenvolvimentoPendenteAlphabet()
    ensures Within("em desenvolvimento pendente", {' ', 'd', 'e', 'i', 'l', 'm', 'n', 'o', 'p', 's', 't', 'v'})
  {
  }

  lemma DevPendenteAlphabet()
    ensures Within("dev pendente", {' ', 'd', 'e', 'n', 'p', 't', 'v'})
  {
  }

  lemma LowAlphabet()
    ensures Within("low", {'l', 'o', 'w'})
  {
  }

  lemma TrivialAlphabet()
    ensures Within("trivial", {'a', 'i', 'l', 'r', 't', 'v'})
  {
  }

  lemma MediumAlphabet()
    ensures Within("medium", {'d', 'e', 'i', 'm', 'u'})
  {
  }

}
