/** What the parts of the driver share. */
module WebDriverTypes {
  /** What to do with a prompt that gets in the way of a command. */
  datatype PromptBehavior = Dismiss | Accept | DismissAndNotify | AcceptAndNotify | Ignore

  /** The member that names an element, as section 11 of the WebDriver specification fixes it. */
  const WEB_ELEMENT_IDENTIFIER := "element-6066-11e4-a52e-4f735466cecf"
}
