/**
 * The workspace of sigmund's chat page: a code editor with a language
 * selector. A language label maps to the label the selector shows and the
 * editor's syntax mode ('html' to the mixed HTML mode, 'opensesame' to
 * Python, a label the selector offers to itself, anything else to
 * Markdown), and a placeholder is shown exactly while the editor is empty.
 */
module Workspace {
  /** `workspaceLanguage`: the selector label and the editor mode for a language label. */
  function WorkspaceLanguage(language: string, options: seq<string>): (string, string)
  {
    if language == "html" then ("html", "htmlmixed")
    else if language == "opensesame" then ("python", "python")
    else if language !in options then ("markdown", "markdown")
    else (language, language)
  }

  /** What a `<select>` shows after its `value` is set: the value when an option has it, and nothing otherwise. */
  function SelectValue(value: string, options: seq<string>): string
  {
    if value in options then value else ""
  }

  /**
   * The two special labels are mapped before the selector's options are
   * consulted; any other label is kept when offered and falls back to
   * Markdown when not.
   */
  lemma LanguageCases(language: string, options: seq<string>)
    ensures var shown := WorkspaceLanguage(language, options).0;
      var mode := WorkspaceLanguage(language, options).1;
      && (language == "html" ==> shown == "html" && mode == "htmlmixed")
      && (language == "opensesame" ==> shown == "python" && mode == "python")
      && (language != "html" && language != "opensesame" && language in options ==> shown == language && mode == language)
      && (language != "html" && language != "opensesame" && language !in options ==> shown == "markdown" && mode == "markdown")
      && (shown != "html" || mode == "htmlmixed") && (shown == "html" || shown == mode)
  {
  }

  /** Mapping a label that is already mapped changes nothing, as long as the selector offers it or it is one of the fixed answers. */
  lemma LanguageStable(language: string, options: seq<string>)
    requires "markdown" in options && "python" in options && "html" in options
    ensures var shown := WorkspaceLanguage(language, options).0;
      WorkspaceLanguage(shown, options).0 == shown && SelectValue(shown, options) == shown
  {
  }

  /** The editor, its language selector and its placeholder. */
  class Editor {
    /** `workspace.getValue()`. */
    var value: string
    /** `workspace.getOption("mode")`. */
    var mode: string
    /** `workspaceLanguageSelect.value`. */
    var selected: string
    /** Whether `workspacePlaceholder` is displayed. */
    var placeholderShown: bool
    /** The values of the selector's options. */
    const options: seq<string>

    /** The placeholder follows the editor's content: the `change` listener runs on every edit. */
    predicate Valid()
      reads this
    {
      placeholderShown <==> value == ""
    }

    /**
     * `initWorkspace`: the editor opens on the text area's content in the
     * mode the text area names (Markdown when it names none), and the
     * selector shows the mapped label.
     */
    constructor (content: string, dataMode: string, options: seq<string>)
      ensures Valid() && this.options == options && value == content
      ensures var language := if dataMode == "" then "markdown" else dataMode;
        mode == language && selected == SelectValue(WorkspaceLanguage(language, options).0, options)
    {
      var language := if dataMode == "" then "markdown" else dataMode;
      this.options := options;
      value := content;
      mode := language;
      var labels := WorkspaceLanguage(language, options);
      selected := if labels.0 in options then labels.0 else "";
      new;
      UpdatePlaceholder();
    }

    /** `updateWorkspacePlaceholder`. */
    method UpdatePlaceholder()
      modifies this
      ensures Valid()
      ensures value == old(value) && mode == old(mode) && selected == old(selected)
    {
      if value == "" {
        placeholderShown := true;
      } else {
        placeholderShown := false;
      }
    }

    /** `workspace.setValue(content)`, which fires the `change` listener. */
    method SetValue(content: string)
      modifies this
      ensures Valid() && value == content
      ensures mode == old(mode) && selected == old(selected)
    {
      value := content;
      UpdatePlaceholder();
    }

    /** `setWorkspace`: the content, then the mapped mode, then the mapped label in the selector. */
    method SetWorkspace(content: string, language: string)
      modifies this
      ensures Valid() && value == content
      ensures mode == WorkspaceLanguage(language, options).1
      ensures selected == SelectValue(WorkspaceLanguage(language, options).0, options)
    {
      var labels := WorkspaceLanguage(language, options);
      SetValue(content);
      mode := labels.1;
      selected := if labels.0 in options then labels.0 else "";
    }

    /** The selector's `change` listener, with the option `choice` picked: only the editor's mode follows. */
    method ChooseLanguage(choice: string)
      requires choice in options
      modifies this
      ensures selected == choice && mode == WorkspaceLanguage(choice, options).1
      ensures value == old(value) && placeholderShown == old(placeholderShown)
    {
      selected := choice;
      mode := WorkspaceLanguage(choice, options).1;
    }

    /** The clear button: the editor is emptied and the placeholder shows. */
    method Clear()
      modifies this
      ensures Valid() && value == "" && placeholderShown
      ensures mode == old(mode) && selected == old(selected)
    {
      SetValue("");
    }
  }
}
