/** Facts about the fixed scenario table and the mock responder: which rule
    answers each scenario's input, that the ids are distinct, and how the
    table splits by complexity. The substring facts are established from explicit
    mismatch certificates (see `Text.NotContains`). */
module EvaluationFacts {
  import opened Text
  import opened Evaluation

  /** The lower-case form of the business hours query. */
  lemma SimpleQueryLower()
    ensures Lower("What are your business hours?") == "what are your business hours?"
  {
    LowerIs("What are your business hours?", "what are your business hours?");
  }

  /** The keyword "business hours" occurs in the business hours query. */
  lemma SimpleQueryHits()
    ensures Contains("what are your business hours?", "business hours")
  {
    ContainsAt("what are your business hours?", "business hours", 14);
  }

  /** The business hours query, "What are your business hours?", is answered by rule 0. */
  lemma ReplyToSimpleQuery()
    ensures Respond(SimpleQuery.userInput) == Replies[0]
  {
    assert SimpleQuery.userInput == "What are your business hours?";
    SimpleQueryLower();
    SimpleQueryHits();
  }

  /** The lower-case form of the product information request. */
  lemma ProductInfoLower()
    ensures Lower("Tell me about your premium plan") == "tell me about your premium plan"
  {
    LowerIs("Tell me about your premium plan", "tell me about your premium plan");
  }

  /** The keyword "business hours" does not occur in the product information request. */
  lemma ProductInfoMisses0()
    ensures !Contains("tell me about your premium plan", "business hours")
  {
    var text := "tell me about your premium plan";
    NotContains(text, "business hours", [0, 0, 0, 0, 0, 0, 0, 0, 0, 1, 0, 0, 0, 0, 0, 0, 0, 0]);
  }

  /** The keyword "premium plan" occurs in the product information request. */
  lemma ProductInfoHits()
    ensures Contains("tell me about your premium plan", "premium plan")
  {
    ContainsAt("tell me about your premium plan", "premium plan", 19);
  }

  /** The product information request, "Tell me about your premium plan", is answered by rule 1. */
  lemma ReplyToProductInfo()
    ensures Respond(ProductInfo.userInput) == Replies[1]
  {
    assert ProductInfo.userInput == "Tell me about your premium plan";
    ProductInfoLower();
    ProductInfoMisses0();
    ProductInfoHits();
  }

  /** The lower-case form of the login problem. */
  lemma TechnicalIssueLower()
    ensures Lower("I can't log into my account") == "i can't log into my account"
  {
    LowerIs("I can't log into my account", "i can't log into my account");
  }

  /** The keyword "business hours" does not occur in the login problem. */
  lemma TechnicalIssueMisses0()
    ensures !Contains("i can't log into my account", "business hours")
  {
    var text := "i can't log into my account";
    NotContains(text, "business hours", [0, 0, 0, 0, 0, 0, 0, 0, 0, 0, 0, 0, 0, 0]);
  }

  /** The keyword "premium plan" does not occur in the login problem. */
  lemma TechnicalIssueMisses1()
    ensures !Contains("i can't log into my account", "premium plan")
  {
    var text := "i can't log into my account";
    NotContains(text, "premium plan", [0, 0, 0, 0, 0, 0, 0, 0, 0, 0, 0, 0, 0, 0, 0, 0]);
  }

  /** The keyword "can't log in" occurs in the login problem. */
  lemma TechnicalIssueHits()
    ensures Contains("i can't log into my account", "can't log in")
  {
    ContainsAt("i can't log into my account", "can't log in", 2);
  }

  /** "I can't log into my account" contains "can't log in", so the login rule
      answers it. */
  lemma LoginProblemMatchesRule()
    ensures Respond(TechnicalIssue.userInput) == Replies[2]
  {
    assert TechnicalIssue.userInput == "I can't log into my account";
    TechnicalIssueLower();
    TechnicalIssueMisses0();
    TechnicalIssueMisses1();
    TechnicalIssueHits();
  }

  /** The lower-case form of the billing question. */
  lemma BillingQuestionLower()
    ensures Lower("Why was I charged twice?") == "why was i charged twice?"
  {
    LowerIs("Why was I charged twice?", "why was i charged twice?");
  }

  /** The keyword "business hours" does not occur in the billing question. */
  lemma BillingQuestionMisses0()
    ensures !Contains("why was i charged twice?", "business hours")
  {
    var text := "why was i charged twice?";
    NotContains(text, "business hours", [0, 0, 0, 0, 0, 0, 0, 0, 0, 0, 0]);
  }

  /** The keyword "premium plan" does not occur in the billing question. */
  lemma BillingQuestionMisses1()
    ensures !Contains("why was i charged twice?", "premium plan")
  {
    var text := "why was i charged twice?";
    NotContains(text, "premium plan", [0, 0, 0, 0, 0, 0, 0, 0, 0, 0, 0, 0, 0]);
  }

  /** The keyword "can't log in" does not occur in the billing question. */
  lemma BillingQuestionMisses2()
    ensures !Contains("why was i charged twice?", "can't log in")
  {
    var text := "why was i charged twice?";
    NotContains(text, "can't log in", [0, 0, 0, 0, 0, 0, 0, 0, 0, 0, 1, 0, 0]);
  }

  /** The keyword "charged twice" occurs in the billing question. */
  lemma BillingQuestionHits()
    ensures Contains("why was i charged twice?", "charged twice")
  {
    ContainsAt("why was i charged twice?", "charged twice", 10);
  }

  /** The billing question, "Why was I charged twice?", is answered by rule 3. */
  lemma ReplyToBillingQuestion()
    ensures Respond(BillingQuestion.userInput) == Replies[3]
  {
    assert BillingQuestion.userInput == "Why was I charged twice?";
    BillingQuestionLower();
    BillingQuestionMisses0();
    BillingQuestionMisses1();
    BillingQuestionMisses2();
    BillingQuestionHits();
  }

  /** The lower-case form of the feature request. */
  lemma FeatureRequestLower()
    ensures Lower("Can you add mobile app support?") == "can you add mobile app support?"
  {
    LowerIs("Can you add mobile app support?", "can you add mobile app support?");
  }

  /** The keyword "business hours" does not occur in the feature request. */
  lemma FeatureRequestMisses0()
    ensures !Contains("can you add mobile app support?", "business hours")
  {
    var text := "can you add mobile app support?";
    NotContains(text, "business hours", [0, 0, 0, 0, 0, 0, 0, 0, 0, 0, 0, 0, 0, 0, 1, 0, 0, 0]);
  }

  /** The keyword "premium plan" does not occur in the feature request. */
  lemma FeatureRequestMisses1()
    ensures !Contains("can you add mobile app support?", "premium plan")
  {
    var text := "can you add mobile app support?";
    NotContains(text, "premium plan", [0, 0, 0, 0, 0, 0, 0, 0, 0, 0, 0, 0, 0, 0, 0, 0, 0, 0, 0, 0]);
  }

  /** The keyword "can't log in" does not occur in the feature request. */
  lemma FeatureRequestMisses2()
    ensures !Contains("can you add mobile app support?", "can't log in")
  {
    var text := "can you add mobile app support?";
    NotContains(text, "can't log in", [3, 0, 0, 0, 0, 0, 0, 0, 0, 0, 0, 0, 0, 0, 0, 0, 0, 0, 0, 0]);
  }

  /** The keyword "charged twice" does not occur in the feature request. */
  lemma FeatureRequestMisses3()
    ensures !Contains("can you add mobile app support?", "charged twice")
  {
    var text := "can you add mobile app support?";
    NotContains(text, "charged twice", [1, 0, 0, 0, 0, 0, 0, 0, 0, 0, 0, 0, 0, 0, 0, 0, 0, 0, 0]);
  }

  /** The keyword "mobile app" occurs in the feature request. */
  lemma FeatureRequestHits()
    ensures Contains("can you add mobile app support?", "mobile app")
  {
    ContainsAt("can you add mobile app support?", "mobile app", 12);
  }

  /** The feature request, "Can you add mobile app support?", is answered by rule 4. */
  lemma ReplyToFeatureRequest()
    ensures Respond(FeatureRequest.userInput) == Replies[4]
  {
    assert FeatureRequest.userInput == "Can you add mobile app support?";
    FeatureRequestLower();
    FeatureRequestMisses0();
    FeatureRequestMisses1();
    FeatureRequestMisses2();
    FeatureRequestMisses3();
    FeatureRequestHits();
  }

  /** The lower-case form of the service complaint. */
  lemma ComplaintHandlingLower()
    ensures Lower("Your service was down yesterday") == "your service was down yesterday"
  {
    LowerIs("Your service was down yesterday", "your service was down yesterday");
  }

  /** The keyword "business hours" does not occur in the service complaint. */
  lemma ComplaintHandlingMisses0()
    ensures !Contains("your service was down yesterday", "business hours")
  {
    var text := "your service was down yesterday";
    NotContains(text, "business hours", [0, 0, 0, 0, 0, 0, 0, 0, 0, 0, 0, 0, 0, 0, 0, 0, 0, 0]);
  }

  /** The keyword "premium plan" does not occur in the service complaint. */
  lemma ComplaintHandlingMisses1()
    ensures !Contains("your service was down yesterday", "premium plan")
  {
    var text := "your service was down yesterday";
    NotContains(text, "premium plan", [0, 0, 0, 0, 0, 0, 0, 0, 0, 0, 0, 0, 0, 0, 0, 0, 0, 0, 0, 0]);
  }

  /** The keyword "can't log in" does not occur in the service complaint. */
  lemma ComplaintHandlingMisses2()
    ensures !Contains("your service was down yesterday", "can't log in")
  {
    var text := "your service was down yesterday";
    NotContains(text, "can't log in", [0, 0, 0, 0, 0, 0, 0, 0, 0, 0, 1, 0, 0, 0, 0, 0, 0, 0, 0, 0]);
  }

  /** The keyword "charged twice" does not occur in the service complaint. */
  lemma ComplaintHandlingMisses3()
    ensures !Contains("your service was down yesterday", "charged twice")
  {
    var text := "your service was down yesterday";
    NotContains(text, "charged twice", [0, 0, 0, 0, 0, 0, 0, 0, 0, 0, 1, 0, 0, 0, 0, 0, 0, 0, 0]);
  }

  /** The keyword "mobile app" does not occur in the service complaint. */
  lemma ComplaintHandlingMisses4()
    ensures !Contains("your service was down yesterday", "mobile app")
  {
    var text := "your service was down yesterday";
    NotContains(text, "mobile app", [0, 0, 0, 0, 0, 0, 0, 0, 0, 0, 0, 0, 0, 0, 0, 0, 0, 0, 0, 0, 0, 0]);
  }

  /** The keyword "service was down" occurs in the service complaint. */
  lemma ComplaintHandlingHits()
    ensures Contains("your service was down yesterday", "service was down")
  {
    ContainsAt("your service was down yesterday", "service was down", 5);
  }

  /** The service complaint, "Your service was down yesterday", is answered by rule 5. */
  lemma ReplyToComplaintHandling()
    ensures Respond(ComplaintHandling.userInput) == Replies[5]
  {
    assert ComplaintHandling.userInput == "Your service was down yesterday";
    ComplaintHandlingLower();
    ComplaintHandlingMisses0();
    ComplaintHandlingMisses1();
    ComplaintHandlingMisses2();
    ComplaintHandlingMisses3();
    ComplaintHandlingMisses4();
    ComplaintHandlingHits();
  }

  /** The lower-case form of the password change request. */
  lemma AccountManagementLower()
    ensures Lower("How do I change my password?") == "how do i change my password?"
  {
    LowerIs("How do I change my password?", "how do i change my password?");
  }

  /** The keyword "business hours" does not occur in the password change request. */
  lemma AccountManagementMisses0()
    ensures !Contains("how do i change my password?", "business hours")
  {
    var text := "how do i change my password?";
    NotContains(text, "business hours", [0, 0, 0, 0, 0, 0, 0, 0, 0, 0, 0, 0, 0, 0, 0]);
  }

  /** The keyword "premium plan" does not occur in the password change request. */
  lemma AccountManagementMisses1()
    ensures !Contains("how do i change my password?", "premium plan")
  {
    var text := "how do i change my password?";
    NotContains(text, "premium plan", [0, 0, 0, 0, 0, 0, 0, 0, 0, 0, 0, 0, 0, 0, 0, 0, 0]);
  }

  /** The keyword "can't log in" does not occur in the password change request. */
  lemma AccountManagementMisses2()
    ensures !Contains("how do i change my password?", "can't log in")
  {
    var text := "how do i change my password?";
    NotContains(text, "can't log in", [0, 0, 0, 0, 0, 0, 0, 0, 0, 1, 0, 0, 0, 0, 0, 0, 0]);
  }

  /** The keyword "charged twice" does not occur in the password change request. */
  lemma AccountManagementMisses3()
    ensures !Contains("how do i change my password?", "charged twice")
  {
    var text := "how do i change my password?";
    NotContains(text, "charged twice", [0, 0, 0, 0, 0, 0, 0, 0, 0, 3, 0, 0, 0, 0, 0, 0]);
  }

  /** The keyword "mobile app" does not occur in the password change request. */
  lemma AccountManagementMisses4()
    ensures !Contains("how do i change my password?", "mobile app")
  {
    var text := "how do i change my password?";
    NotContains(text, "mobile app", [0, 0, 0, 0, 0, 0, 0, 0, 0, 0, 0, 0, 0, 0, 0, 0, 1, 0, 0]);
  }

  /** The keyword "service was down" does not occur in the password change request. */
  lemma AccountManagementMisses5()
    ensures !Contains("how do i change my password?", "service was down")
  {
    var text := "how do i change my password?";
    NotContains(text, "service was down", [0, 0, 0, 0, 0, 0, 0, 0, 0, 0, 0, 0, 0]);
  }

  /** The keyword "change password" does not occur in the password change request. */
  lemma AccountManagementMisses6()
    ensures !Contains("how do i change my password?", "change password")
  {
    var text := "how do i change my password?";
    NotContains(text, "change password", [0, 0, 0, 0, 0, 0, 0, 0, 0, 7, 0, 0, 0, 0]);
  }

  /** The keyword "difference between plans" does not occur in the password change request. */
  lemma AccountManagementMisses7()
    ensures !Contains("how do i change my password?", "difference between plans")
  {
    var text := "how do i change my password?";
    NotContains(text, "difference between plans", [0, 0, 0, 0, 1]);
  }

  /** The keyword "work with slack" does not occur in the password change request. */
  lemma AccountManagementMisses8()
    ensures !Contains("how do i change my password?", "work with slack")
  {
    var text := "how do i change my password?";
    NotContains(text, "work with slack", [0, 0, 1, 0, 0, 0, 0, 0, 0, 0, 0, 0, 0, 0]);
  }

  /** The keyword "speak to supervisor" does not occur in the password change request. */
  lemma AccountManagementMisses9()
    ensures !Contains("how do i change my password?", "speak to supervisor")
  {
    var text := "how do i change my password?";
    NotContains(text, "speak to supervisor", [0, 0, 0, 0, 0, 0, 0, 0, 0, 0]);
  }

  /** "How do I change my password?" contains no keyword (in particular not
      "change password"), so it gets the default reply. */
  lemma PasswordChangeGetsDefault()
    ensures Respond(AccountManagement.userInput) == DefaultReply
  {
    assert AccountManagement.userInput == "How do I change my password?";
    AccountManagementLower();
    AccountManagementMisses0();
    AccountManagementMisses1();
    AccountManagementMisses2();
    AccountManagementMisses3();
    AccountManagementMisses4();
    AccountManagementMisses5();
    AccountManagementMisses6();
    AccountManagementMisses7();
    AccountManagementMisses8();
    AccountManagementMisses9();
  }

  /** The lower-case form of the plan comparison. */
  lemma PricingInquiryLower()
    ensures Lower("What's the difference between plans?") == "what's the difference between plans?"
  {
    LowerIs("What's the difference between plans?", "what's the difference between plans?");
  }

  /** The keyword "business hours" does not occur in the plan comparison. */
  lemma PricingInquiryMisses0()
    ensures !Contains("what's the difference between plans?", "business hours")
  {
    var text := "what's the difference between plans?";
    NotContains(text, "business hours", [0, 0, 0, 0, 0, 0, 0, 0, 0, 0, 0, 0, 0, 0, 0, 0, 0, 0, 0, 0, 0, 0, 1]);
  }

  /** The keyword "premium plan" does not occur in the plan comparison. */
  lemma PricingInquiryMisses1()
    ensures !Contains("what's the difference between plans?", "premium plan")
  {
    var text := "what's the difference between plans?";
    NotContains(text, "premium plan", [0, 0, 0, 0, 0, 0, 0, 0, 0, 0, 0, 0, 0, 0, 0, 0, 0, 0, 0, 0, 0, 0, 0, 0, 0]);
  }

  /** The keyword "can't log in" does not occur in the plan comparison. */
  lemma PricingInquiryMisses2()
    ensures !Contains("what's the difference between plans?", "can't log in")
  {
    var text := "what's the difference between plans?";
    NotContains(text, "can't log in", [0, 0, 0, 0, 0, 0, 0, 0, 0, 0, 0, 0, 0, 0, 0, 0, 0, 0, 0, 1, 0, 0, 0, 0, 0]);
  }

  /** The keyword "charged twice" does not occur in the plan comparison. */
  lemma PricingInquiryMisses3()
    ensures !Contains("what's the difference between plans?", "charged twice")
  {
    var text := "what's the difference between plans?";
    NotContains(text, "charged twice", [0, 0, 0, 0, 0, 0, 0, 0, 0, 0, 0, 0, 0, 0, 0, 0, 0, 0, 0, 1, 0, 0, 0, 0]);
  }

  /** The keyword "mobile app" does not occur in the plan comparison. */
  lemma PricingInquiryMisses4()
    ensures !Contains("what's the difference between plans?", "mobile app")
  {
    var text := "what's the difference between plans?";
    NotContains(text, "mobile app", [0, 0, 0, 0, 0, 0, 0, 0, 0, 0, 0, 0, 0, 0, 0, 0, 0, 0, 0, 0, 0, 0, 0, 0, 0, 0, 0]);
  }

  /** The keyword "service was down" does not occur in the plan comparison. */
  lemma PricingInquiryMisses5()
    ensures !Contains("what's the difference between plans?", "service was down")
  {
    var text := "what's the difference between plans?";
    NotContains(text, "service was down", [0, 0, 0, 0, 0, 1, 0, 0, 0, 0, 0, 0, 0, 0, 0, 0, 0, 0, 0, 0, 0]);
  }

  /** The keyword "change password" does not occur in the plan comparison. */
  lemma PricingInquiryMisses6()
    ensures !Contains("what's the difference between plans?", "change password")
  {
    var text := "what's the difference between plans?";
    NotContains(text, "change password", [0, 0, 0, 0, 0, 0, 0, 0, 0, 0, 0, 0, 0, 0, 0, 0, 0, 0, 0, 1, 0, 0]);
  }

  /** The keyword "difference between plans" occurs in the plan comparison. */
  lemma PricingInquiryHits()
    ensures Contains("what's the difference between plans?", "difference between plans")
  {
    ContainsAt("what's the difference between plans?", "difference between plans", 11);
  }

  /** The plan comparison, "What's the difference between plans?", is answered by rule 7. */
  lemma ReplyToPricingInquiry()
    ensures Respond(PricingInquiry.userInput) == Replies[7]
  {
    assert PricingInquiry.userInput == "What's the difference between plans?";
    PricingInquiryLower();
    PricingInquiryMisses0();
    PricingInquiryMisses1();
    PricingInquiryMisses2();
    PricingInquiryMisses3();
    PricingInquiryMisses4();
    PricingInquiryMisses5();
    PricingInquiryMisses6();
    PricingInquiryHits();
  }

  /** The lower-case form of the Slack integration question. */
  lemma IntegrationQuestionLower()
    ensures Lower("Does this work with Slack?") == "does this work with slack?"
  {
    LowerIs("Does this work with Slack?", "does this work with slack?");
  }

  /** The keyword "business hours" does not occur in the Slack integration question. */
  lemma IntegrationQuestionMisses0()
    ensures !Contains("does this work with slack?", "business hours")
  {
    var text := "does this work with slack?";
    NotContains(text, "business hours", [0, 0, 0, 0, 0, 0, 0, 0, 0, 0, 0, 0, 0]);
  }

  /** The keyword "premium plan" does not occur in the Slack integration question. */
  lemma IntegrationQuestionMisses1()
    ensures !Contains("does this work with slack?", "premium plan")
  {
    var text := "does this work with slack?";
    NotContains(text, "premium plan", [0, 0, 0, 0, 0, 0, 0, 0, 0, 0, 0, 0, 0, 0, 0]);
  }

  /** The keyword "can't log in" does not occur in the Slack integration question. */
  lemma IntegrationQuestionMisses2()
    ensures !Contains("does this work with slack?", "can't log in")
  {
    var text := "does this work with slack?";
    NotContains(text, "can't log in", [0, 0, 0, 0, 0, 0, 0, 0, 0, 0, 0, 0, 0, 0, 0]);
  }

  /** The keyword "charged twice" does not occur in the Slack integration question. */
  lemma IntegrationQuestionMisses3()
    ensures !Contains("does this work with slack?", "charged twice")
  {
    var text := "does this work with slack?";
    NotContains(text, "charged twice", [0, 0, 0, 0, 0, 0, 0, 0, 0, 0, 0, 0, 0, 0]);
  }

  /** The keyword "mobile app" does not occur in the Slack integration question. */
  lemma IntegrationQuestionMisses4()
    ensures !Contains("does this work with slack?", "mobile app")
  {
    var text := "does this work with slack?";
    NotContains(text, "mobile app", [0, 0, 0, 0, 0, 0, 0, 0, 0, 0, 0, 0, 0, 0, 0, 0, 0]);
  }

  /** The keyword "service was down" does not occur in the Slack integration question. */
  lemma IntegrationQuestionMisses5()
    ensures !Contains("does this work with slack?", "service was down")
  {
    var text := "does this work with slack?";
    NotContains(text, "service was down", [0, 0, 0, 1, 0, 0, 0, 0, 1, 0, 0]);
  }

  /** The keyword "change password" does not occur in the Slack integration question. */
  lemma IntegrationQuestionMisses6()
    ensures !Contains("does this work with slack?", "change password")
  {
    var text := "does this work with slack?";
    NotContains(text, "change password", [0, 0, 0, 0, 0, 0, 0, 0, 0, 0, 0, 0]);
  }

  /** The keyword "difference between plans" does not occur in the Slack integration question. */
  lemma IntegrationQuestionMisses7()
    ensures !Contains("does this work with slack?", "difference between plans")
  {
    var text := "does this work with slack?";
    NotContains(text, "difference between plans", [1, 0, 0]);
  }

  /** The keyword "work with slack" occurs in the Slack integration question. */
  lemma IntegrationQuestionHits()
    ensures Contains("does this work with slack?", "work with slack")
  {
    ContainsAt("does this work with slack?", "work with slack", 10);
  }

  /** The Slack integration question, "Does this work with Slack?", is answered by rule 8. */
  lemma ReplyToIntegrationQuestion()
    ensures Respond(IntegrationQuestion.userInput) == Replies[8]
  {
    assert IntegrationQuestion.userInput == "Does this work with Slack?";
    IntegrationQuestionLower();
    IntegrationQuestionMisses0();
    IntegrationQuestionMisses1();
    IntegrationQuestionMisses2();
    IntegrationQuestionMisses3();
    IntegrationQuestionMisses4();
    IntegrationQuestionMisses5();
    IntegrationQuestionMisses6();
    IntegrationQuestionMisses7();
    IntegrationQuestionHits();
  }

  /** The lower-case form of the supervisor request. */
  lemma EscalationScenarioLower()
    ensures Lower("I need to speak to a supervisor") == "i need to speak to a supervisor"
  {
    LowerIs("I need to speak to a supervisor", "i need to speak to a supervisor");
  }

  /** The keyword "business hours" does not occur in the supervisor request. */
  lemma EscalationScenarioMisses0()
    ensures !Contains("i need to speak to a supervisor", "business hours")
  {
    var text := "i need to speak to a supervisor";
    NotContains(text, "business hours", [0, 0, 0, 0, 0, 0, 0, 0, 0, 0, 0, 0, 0, 0, 0, 0, 0, 0]);
  }

  /** The keyword "premium plan" does not occur in the supervisor request. */
  lemma EscalationScenarioMisses1()
    ensures !Contains("i need to speak to a supervisor", "premium plan")
  {
    var text := "i need to speak to a supervisor";
    NotContains(text, "premium plan", [0, 0, 0, 0, 0, 0, 0, 0, 0, 0, 0, 1, 0, 0, 0, 0, 0, 0, 0, 0]);
  }

  /** The keyword "can't log in" does not occur in the supervisor request. */
  lemma EscalationScenarioMisses2()
    ensures !Contains("i need to speak to a supervisor", "can't log in")
  {
    var text := "i need to speak to a supervisor";
    NotContains(text, "can't log in", [0, 0, 0, 0, 0, 0, 0, 0, 0, 0, 0, 0, 0, 0, 0, 0, 0, 0, 0, 0]);
  }

  /** The keyword "charged twice" does not occur in the supervisor request. */
  lemma EscalationScenarioMisses3()
    ensures !Contains("i need to speak to a supervisor", "charged twice")
  {
    var text := "i need to speak to a supervisor";
    NotContains(text, "charged twice", [0, 0, 0, 0, 0, 0, 0, 0, 0, 0, 0, 0, 0, 0, 0, 0, 0, 0, 0]);
  }

  /** The keyword "mobile app" does not occur in the supervisor request. */
  lemma EscalationScenarioMisses4()
    ensures !Contains("i need to speak to a supervisor", "mobile app")
  {
    var text := "i need to speak to a supervisor";
    NotContains(text, "mobile app", [0, 0, 0, 0, 0, 0, 0, 0, 0, 0, 0, 0, 0, 0, 0, 0, 0, 0, 0, 0, 0, 0]);
  }

  /** The keyword "service was down" does not occur in the supervisor request. */
  lemma EscalationScenarioMisses5()
    ensures !Contains("i need to speak to a supervisor", "service was down")
  {
    var text := "i need to speak to a supervisor";
    NotContains(text, "service was down", [0, 0, 0, 0, 0, 0, 0, 0, 0, 0, 1, 0, 0, 0, 0, 0]);
  }

  /** The keyword "change password" does not occur in the supervisor request. */
  lemma EscalationScenarioMisses6()
    ensures !Contains("i need to speak to a supervisor", "change password")
  {
    var text := "i need to speak to a supervisor";
    NotContains(text, "change password", [0, 0, 0, 0, 0, 0, 0, 0, 0, 0, 0, 0, 0, 0, 0, 0, 0]);
  }

  /** The keyword "difference between plans" does not occur in the supervisor request. */
  lemma EscalationScenarioMisses7()
    ensures !Contains("i need to speak to a supervisor", "difference between plans")
  {
    var text := "i need to speak to a supervisor";
    NotContains(text, "difference between plans", [0, 0, 0, 0, 0, 1, 0, 0]);
  }

  /** The keyword "work with slack" does not occur in the supervisor request. */
  lemma EscalationScenarioMisses8()
    ensures !Contains("i need to speak to a supervisor", "work with slack")
  {
    var text := "i need to speak to a supervisor";
    NotContains(text, "work with slack", [0, 0, 0, 0, 0, 0, 0, 0, 0, 0, 0, 0, 0, 0, 0, 0, 0]);
  }

  /** The keyword "speak to supervisor" does not occur in the supervisor request. */
  lemma EscalationScenarioMisses9()
    ensures !Contains("i need to speak to a supervisor", "speak to supervisor")
  {
    var text := "i need to speak to a supervisor";
    NotContains(text, "speak to supervisor", [0, 0, 0, 0, 0, 0, 0, 0, 0, 0, 9, 0, 0]);
  }

  /** "I need to speak to a supervisor" contains no keyword (in particular not
      "speak to supervisor"), so it gets the default reply. */
  lemma SupervisorRequestGetsDefault()
    ensures Respond(EscalationScenario.userInput) == DefaultReply
  {
    assert EscalationScenario.userInput == "I need to speak to a supervisor";
    EscalationScenarioLower();
    EscalationScenarioMisses0();
    EscalationScenarioMisses1();
    EscalationScenarioMisses2();
    EscalationScenarioMisses3();
    EscalationScenarioMisses4();
    EscalationScenarioMisses5();
    EscalationScenarioMisses6();
    EscalationScenarioMisses7();
    EscalationScenarioMisses8();
    EscalationScenarioMisses9();
  }

  // ------------------------------------------------------- whole table

  /** The table has ten scenarios and no two of them share an id. */
  lemma TableIdsDistinct()
    ensures |Scenarios()| == 10
    ensures forall i, j :: 0 <= i < j < |Scenarios()| ==> Scenarios()[i].id != Scenarios()[j].id
  {
  }

  /** Every scenario has one of the three complexities. */
  lemma TableComplexitiesKnown()
    ensures forall i :: 0 <= i < |Scenarios()| ==> Scenarios()[i].complexity in {"simple", "medium", "complex"}
  {
  }

  /** `mask[i]` tells whether the scenario at position `i` has complexity `c`. */
  predicate MatchesPattern(s: seq<TestScenario>, c: string, mask: seq<bool>) {
    |s| == |mask| && forall i :: 0 <= i < |s| ==> (s[i].complexity == c <==> mask[i])
  }

  /** One step of the filter from position `k` of a list. */
  lemma WithComplexityStep(scenarios: seq<TestScenario>, k: nat, complexity: string)
    requires k < |scenarios|
    ensures WithComplexity(scenarios[k..], complexity) ==
      (if scenarios[k].complexity == complexity then [scenarios[k]] else []) + WithComplexity(scenarios[k + 1..], complexity)
  {
    assert scenarios[k..][1..] == scenarios[k + 1..];
  }

  /** The positions of the simple scenarios in the table. */
  const SimpleMask: seq<bool> := [true, false, false, false, true, false, true, false, true, false]

  /** Filtering the second half of a list by `c` keeps the positions
      `SimpleMask` marks there. */
  lemma SimpleTailPositions(s: seq<TestScenario>, c: string)
    requires MatchesPattern(s, c, SimpleMask)
    ensures WithComplexity(s[5..], c) == [s[6], s[8]]
  {
    assert s[10..] == [];
    assert SimpleMask[9] == false;
    assert s[9].complexity != c;
    WithComplexityStep(s, 9, c);
    assert WithComplexity(s[9..], c) == [];
    assert SimpleMask[8] == true;
    assert s[8].complexity == c;
    WithComplexityStep(s, 8, c);
    assert WithComplexity(s[8..], c) == [s[8]];
    assert SimpleMask[7] == false;
    assert s[7].complexity != c;
    WithComplexityStep(s, 7, c);
    assert WithComplexity(s[7..], c) == [s[8]];
    assert SimpleMask[6] == true;
    assert s[6].complexity == c;
    WithComplexityStep(s, 6, c);
    assert WithComplexity(s[6..], c) == [s[6], s[8]];
    assert SimpleMask[5] == false;
    assert s[5].complexity != c;
    WithComplexityStep(s, 5, c);
    assert WithComplexity(s[5..], c) == [s[6], s[8]];
  }

  /** Filtering a list by `c` keeps the positions `SimpleMask` marks, in order. */
  lemma SimplePositions(s: seq<TestScenario>, c: string)
    requires MatchesPattern(s, c, SimpleMask)
    ensures WithComplexity(s, c) == [s[0], s[4], s[6], s[8]]
  {
    SimpleTailPositions(s, c);
    assert SimpleMask[4] == true;
    assert s[4].complexity == c;
    WithComplexityStep(s, 4, c);
    assert WithComplexity(s[4..], c) == [s[4], s[6], s[8]];
    assert SimpleMask[3] == false;
    assert s[3].complexity != c;
    WithComplexityStep(s, 3, c);
    assert WithComplexity(s[3..], c) == [s[4], s[6], s[8]];
    assert SimpleMask[2] == false;
    assert s[2].complexity != c;
    WithComplexityStep(s, 2, c);
    assert WithComplexity(s[2..], c) == [s[4], s[6], s[8]];
    assert SimpleMask[1] == false;
    assert s[1].complexity != c;
    WithComplexityStep(s, 1, c);
    assert WithComplexity(s[1..], c) == [s[4], s[6], s[8]];
    assert SimpleMask[0] == true;
    assert s[0].complexity == c;
    WithComplexityStep(s, 0, c);
    assert WithComplexity(s[0..], c) == [s[0], s[4], s[6], s[8]];
    assert s[0..] == s;
  }

  /** Choosing "simple" runs exactly these scenarios, in table order. */
  lemma SimpleScenarios()
    ensures SelectScenarios("simple", Scenarios()) == [SimpleQuery, FeatureRequest, AccountManagement, IntegrationQuestion]
  {
    assert MatchesPattern(Scenarios(), "simple", SimpleMask);
    SimplePositions(Scenarios(), "simple");
  }

  /** The positions of the medium scenarios in the table. */
  const MediumMask: seq<bool> := [false, true, true, true, false, false, false, true, false, false]

  /** Filtering the second half of a list by `c` keeps the positions
      `MediumMask` marks there. */
  lemma MediumTailPositions(s: seq<TestScenario>, c: string)
    requires MatchesPattern(s, c, MediumMask)
    ensures WithComplexity(s[5..], c) == [s[7]]
  {
    assert s[10..] == [];
    assert MediumMask[9] == false;
    assert s[9].complexity != c;
    WithComplexityStep(s, 9, c);
    assert WithComplexity(s[9..], c) == [];
    assert MediumMask[8] == false;
    assert s[8].complexity != c;
    WithComplexityStep(s, 8, c);
    assert WithComplexity(s[8..], c) == [];
    assert MediumMask[7] == true;
    assert s[7].complexity == c;
    WithComplexityStep(s, 7, c);
    assert WithComplexity(s[7..], c) == [s[7]];
    assert MediumMask[6] == false;
    assert s[6].complexity != c;
    WithComplexityStep(s, 6, c);
    assert WithComplexity(s[6..], c) == [s[7]];
    assert MediumMask[5] == false;
    assert s[5].complexity != c;
    WithComplexityStep(s, 5, c);
    assert WithComplexity(s[5..], c) == [s[7]];
  }

  /** Filtering a list by `c` keeps the positions `MediumMask` marks, in order. */
  lemma MediumPositions(s: seq<TestScenario>, c: string)
    requires MatchesPattern(s, c, MediumMask)
    ensures WithComplexity(s, c) == [s[1], s[2], s[3], s[7]]
  {
    MediumTailPositions(s, c);
    assert MediumMask[4] == false;
    assert s[4].complexity != c;
    WithComplexityStep(s, 4, c);
    assert WithComplexity(s[4..], c) == [s[7]];
    assert MediumMask[3] == true;
    assert s[3].complexity == c;
    WithComplexityStep(s, 3, c);
    assert WithComplexity(s[3..], c) == [s[3], s[7]];
    assert MediumMask[2] == true;
    assert s[2].complexity == c;
    WithComplexityStep(s, 2, c);
    assert WithComplexity(s[2..], c) == [s[2], s[3], s[7]];
    assert MediumMask[1] == true;
    assert s[1].complexity == c;
    WithComplexityStep(s, 1, c);
    assert WithComplexity(s[1..], c) == [s[1], s[2], s[3], s[7]];
    assert MediumMask[0] == false;
    assert s[0].complexity != c;
    WithComplexityStep(s, 0, c);
    assert WithComplexity(s[0..], c) == [s[1], s[2], s[3], s[7]];
    assert s[0..] == s;
  }

  /** Choosing "medium" runs exactly these scenarios, in table order. */
  lemma MediumScenarios()
    ensures SelectScenarios("medium", Scenarios()) == [ProductInfo, TechnicalIssue, BillingQuestion, PricingInquiry]
  {
    assert MatchesPattern(Scenarios(), "medium", MediumMask);
    MediumPositions(Scenarios(), "medium");
  }

  /** The positions of the complex scenarios in the table. */
  const ComplexMask: seq<bool> := [false, false, false, false, false, true, false, false, false, true]

  /** Filtering the second half of a list by `c` keeps the positions
      `ComplexMask` marks there. */
  lemma ComplexTailPositions(s: seq<TestScenario>, c: string)
    requires MatchesPattern(s, c, ComplexMask)
    ensures WithComplexity(s[5..], c) == [s[5], s[9]]
  {
    assert s[10..] == [];
    assert ComplexMask[9] == true;
    assert s[9].complexity == c;
    WithComplexityStep(s, 9, c);
    assert WithComplexity(s[9..], c) == [s[9]];
    assert ComplexMask[8] == false;
    assert s[8].complexity != c;
    WithComplexityStep(s, 8, c);
    assert WithComplexity(s[8..], c) == [s[9]];
    assert ComplexMask[7] == false;
    assert s[7].complexity != c;
    WithComplexityStep(s, 7, c);
    assert WithComplexity(s[7..], c) == [s[9]];
    assert ComplexMask[6] == false;
    assert s[6].complexity != c;
    WithComplexityStep(s, 6, c);
    assert WithComplexity(s[6..], c) == [s[9]];
    assert ComplexMask[5] == true;
    assert s[5].complexity == c;
    WithComplexityStep(s, 5, c);
    assert WithComplexity(s[5..], c) == [s[5], s[9]];
  }

  /** Filtering a list by `c` keeps the positions `ComplexMask` marks, in order. */
  lemma ComplexPositions(s: seq<TestScenario>, c: string)
    requires MatchesPattern(s, c, ComplexMask)
    ensures WithComplexity(s, c) == [s[5], s[9]]
  {
    ComplexTailPositions(s, c);
    assert ComplexMask[4] == false;
    assert s[4].complexity != c;
    WithComplexityStep(s, 4, c);
    assert WithComplexity(s[4..], c) == [s[5], s[9]];
    assert ComplexMask[3] == false;
    assert s[3].complexity != c;
    WithComplexityStep(s, 3, c);
    assert WithComplexity(s[3..], c) == [s[5], s[9]];
    assert ComplexMask[2] == false;
    assert s[2].complexity != c;
    WithComplexityStep(s, 2, c);
    assert WithComplexity(s[2..], c) == [s[5], s[9]];
    assert ComplexMask[1] == false;
    assert s[1].complexity != c;
    WithComplexityStep(s, 1, c);
    assert WithComplexity(s[1..], c) == [s[5], s[9]];
    assert ComplexMask[0] == false;
    assert s[0].complexity != c;
    WithComplexityStep(s, 0, c);
    assert WithComplexity(s[0..], c) == [s[5], s[9]];
    assert s[0..] == s;
  }

  /** Choosing "complex" runs exactly these scenarios, in table order. */
  lemma ComplexScenarios()
    ensures SelectScenarios("complex", Scenarios()) == [ComplaintHandling, EscalationScenario]
  {
    assert MatchesPattern(Scenarios(), "complex", ComplexMask);
    ComplexPositions(Scenarios(), "complex");
  }

  /** Choosing "all" runs the whole table. */
  lemma AllScenarios()
    ensures SelectScenarios("all", Scenarios()) == Scenarios()
  {
  }
}
