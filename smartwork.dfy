/** The smart-work page's handlers (pages/SmartWork.tsx): generating from the
    selected office template and the typed input, and switching templates. The
    generation call is a parameter; each handler runs as one atomic step. */
module SmartWork {
  import opened Wrappers
  import opened Types
  import opened Auth
  import opened Prompt

  const GenerateXpReward := 10

  class SmartWorkPage {
    const auth: AuthStore
    var selectedTask: TemplateItem
    var inputPrompt: string
    var result: string
    var loading: bool

    /** The page opens on the first office template. */
    constructor (auth: AuthStore, firstTemplate: TemplateItem)
      ensures this.auth == auth && selectedTask == firstTemplate
      ensures inputPrompt == "" && result == "" && !loading
    {
      this.auth := auth;
      selectedTask := firstTemplate;
      inputPrompt, result := "", "";
      loading := false;
    }

    /** An empty input returns at once: no XP, no call. Any other input, even one
        of only spaces, earns 10 XP, and the selected template with its first
        placeholder replaced by the input is sent to `generate`, whose answer
        becomes the result. */
    method HandleGenerate(generate: string -> string) returns (sent: Option<string>)
      modifies this, auth
      ensures old(inputPrompt) == "" ==> sent == None && unchanged(this, auth)
      ensures old(inputPrompt) != "" ==>
        && sent == Some(ComposePrompt(old(selectedTask).prompt, old(inputPrompt)))
        && result == generate(sent.value)
        && !loading
        && auth.user == Awarded(old(auth.user), GenerateXpReward)
        && inputPrompt == old(inputPrompt) && selectedTask == old(selectedTask)
    {
      if inputPrompt == "" {
        return None;
      }
      loading := true;
      auth.GainXp(GenerateXpReward);
      var fullPrompt := ComposePrompt(selectedTask.prompt, inputPrompt);
      var response := generate(fullPrompt);
      result := response;
      loading := false;
      sent := Some(fullPrompt);
    }

    /** Choosing a template clears the result and the input. */
    method SelectTask(item: TemplateItem)
      modifies this
      ensures selectedTask == item && result == "" && inputPrompt == ""
      ensures loading == old(loading)
    {
      selectedTask := item;
      result := "";
      inputPrompt := "";
    }

    method EditInput(text: string)
      modifies this
      ensures inputPrompt == text
      ensures selectedTask == old(selectedTask) && result == old(result) && loading == old(loading)
    {
      inputPrompt := text;
    }

    /** The reset button clears only the result. */
    method ClearResult()
      modifies this
      ensures result == ""
      ensures selectedTask == old(selectedTask) && inputPrompt == old(inputPrompt) && loading == old(loading)
    {
      result := "";
    }
  }
}
