/** The quality check the question generator applies to each question it proposes. */
module Question {
  import opened Text

  /** Words that make a question too personal. */
  const PersonalKeywords: seq<string> := ["我家", "我老公", "我老婆", "我孩子", "我妈", "我爸"]

  /** The question mentions one of the personal keywords. */
  predicate IsPersonal(text: string) {
    ContainsAny(text, PersonalKeywords)
  }

  /** The question holds neither the ASCII nor the full-width question mark. */
  predicate LacksQuestionMark(text: string) {
    !Contains(text, "?") && !Contains(text, "？")
  }

  /** `validate_question`'s dictionary. */
  datatype QuestionValidation = QuestionValidation(isValid: bool, score: int, issues: seq<string>, suggestions: seq<string>)

  /** `validate_question`: starting from 10, a too short (under 20 characters) or else too long
      (over 500) question loses 3 or 2, a personal one loses 2 and gains a suggestion, one
      without a question mark loses 1; each loss records one issue. */
  method ValidateQuestion(text: string) returns (v: QuestionValidation)
    ensures v.score == 10 - (if |text| < 20 then 3 else if |text| > 500 then 2 else 0)
                          - (if IsPersonal(text) then 2 else 0) - (if LacksQuestionMark(text) then 1 else 0)
    ensures v.issues == (if |text| < 20 then ["问题太短"] else if |text| > 500 then ["问题太长"] else [])
                        + (if IsPersonal(text) then ["问题过于私人化"] else [])
                        + (if LacksQuestionMark(text) then ["缺少问号"] else [])
    ensures v.suggestions == if IsPersonal(text) then ["建议改为更普遍的表达方式"] else []
    ensures v.isValid <==> v.score >= 6 && |v.issues| <= 2
    ensures 4 <= v.score <= 10 && |v.issues| <= 3 && |v.issues| <= 10 - v.score
    ensures v.isValid <==> v.score >= 6
  {
    var issues: seq<string> := [];
    var suggestions: seq<string> := [];
    var score := 10;
    if |text| < 20 {
      issues := issues + ["问题太短"];
      score := score - 3;
    } else if |text| > 500 {
      issues := issues + ["问题太长"];
      score := score - 2;
    }
    if FindAny(text, PersonalKeywords) {
      issues := issues + ["问题过于私人化"];
      suggestions := suggestions + ["建议改为更普遍的表达方式"];
      score := score - 2;
    }
    if !Contains(text, "?") && !Contains(text, "？") {
      issues := issues + ["缺少问号"];
      score := score - 1;
    }
    var isValid := score >= 6 && |issues| <= 2;
    v := QuestionValidation(isValid, score, issues, suggestions);
  }
}
