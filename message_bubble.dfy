/**
 * The view-model behind one chat bubble: "add as to-do" hands the bubble's text to the
 * shared AI chat view-model and asks it to open the new-item sheet.
 */
module MessageBubble {
  import AIChat

  class MessageBubbleViewModel {
    const aiViewModel: AIChat.AIViewModel

    constructor (aiViewModel: AIChat.AIViewModel)
      ensures this.aiViewModel == aiViewModel
    {
      this.aiViewModel := aiViewModel;
    }

    /**
     * `addNewItem(with:)`: the shared view-model's selected message becomes `content` and its
     * new-item sheet is shown; its messages, input and loading flag are left alone.
     */
    method AddNewItem(content: string)
      modifies aiViewModel`selectedMessage, aiViewModel`showNewItem
      ensures aiViewModel.selectedMessage == content && aiViewModel.showNewItem
      ensures aiViewModel.messages == old(aiViewModel.messages)
      ensures aiViewModel.inputText == old(aiViewModel.inputText)
      ensures aiViewModel.isLoading == old(aiViewModel.isLoading)
    {
      aiViewModel.selectedMessage := content;
      aiViewModel.showNewItem := true;
    }
  }
}
