/** The component's state and its event handlers. Each React state hook is
    a field; each queued `setState` update is applied in call order. */
module App {

  import opened Catalog
  import opened Text
  import opened Terminal
  import opened Wizard
  import opened View

  class AppState {
    var step: nat
    var config: map<string, string>
    var files: seq<string>
    var githubRepo: string
    var isComplete: bool
    var isConnected: bool
    var terminalOutput: seq<string>
    var userInput: string

    /** The step never passes the last position, and only a completed
        configuration is connected. */
    ghost predicate Valid()
      reads this
    {
      step <= LastStep && (isConnected ==> isComplete)
    }

    function Position(): Nav
      reads this
    {
      Nav(step, isComplete)
    }

    /** The screen rendered for the current state: the terminal exactly when
        connected, and a category screen only for an existing category. */
    function CurrentScreen(): (r: Screen)
      reads this
      ensures r == TerminalScreen <==> isConnected
      ensures r.CategoryScreen? ==> r.index == step && r.index < |ConfigOptions|
    {
      CategoryScreenInBounds(step, isComplete, isConnected);
      ScreenOf(step, isComplete, isConnected)
    }

    /** The initial values of the state hooks. */
    constructor ()
      ensures Valid()
      ensures Position() == Start
      ensures config == map[] && files == [] && githubRepo == ""
      ensures !isConnected && terminalOutput == [] && userInput == ""
    {
      step := 0;
      config := map[];
      files := [];
      githubRepo := "";
      isComplete := false;
      isConnected := false;
      terminalOutput := [];
      userInput := "";
    }

    method HandleOptionSelect(optionId: string, value: string)
      requires Valid()
      modifies this`config
      ensures Valid()
      ensures config == Select(old(config), optionId, value)
    {
      config := config[optionId := value];
    }

    /** `names` are the names of the files picked in the file input, in order. */
    method HandleFileAdd(names: seq<string>)
      requires Valid()
      modifies this`files
      ensures Valid()
      ensures files == AddFiles(old(files), names)
    {
      files := files + names;
    }

    /** Replaces the repository name. No element of the component is wired
        to this handler, so in the component as written `githubRepo` keeps
        its initial value `""`. */
    method HandleGithubRepoChange(value: string)
      requires Valid()
      modifies this`githubRepo
      ensures Valid()
      ensures githubRepo == value
    {
      githubRepo := value;
    }

    method HandleNext()
      requires Valid()
      modifies this`step, this`isComplete
      ensures Valid()
      ensures Position() == Advance(old(Position()))
    {
      if step < CategoryCount + 1 {
        step := step + 1;
      } else {
        isComplete := true;
      }
    }

    method HandleBack()
      requires Valid()
      modifies this`step
      ensures Valid()
      ensures Position() == Retreat(old(Position()))
    {
      if step > 0 {
        step := step - 1;
      }
    }

    /** The Connect button exists only on the summary screen. */
    method HandleConnect()
      requires Valid() && isComplete
      modifies this`isConnected
      ensures Valid() && isConnected
    {
      isConnected := true;
    }

    /** The terminal's input field. */
    method HandleInputChange(value: string)
      modifies this`userInput
      ensures userInput == value
    {
      userInput := value;
    }

    /** Enter submits the typed line, then clears the field; other keys do nothing. */
    method HandleKeyDown(key: string, now: string)
      modifies this`terminalOutput, this`userInput
      ensures key == "Enter" ==> terminalOutput == Execute(Lines, old(terminalOutput), old(userInput), now) && userInput == ""
      ensures key != "Enter" ==> terminalOutput == old(terminalOutput) && userInput == old(userInput)
    {
      if key == "Enter" {
        ExecuteCommand(userInput, now);
        userInput := "";
      }
    }

    /** Runs one submitted line; `now` is the clock reading that `date` prints.
        The echo is appended first, then the switch on the trimmed,
        lower-cased line appends the command's lines. */
    method ExecuteCommand(command: string, now: string)
      modifies this`terminalOutput
      ensures terminalOutput == Execute(Lines, old(terminalOutput), command, now)
    {
      terminalOutput := terminalOutput + ["> " + command];
      var key := Lower(Trim(command));
      if key == "ls" {
        terminalOutput := terminalOutput + [Lines.ls];
      } else if key == "pwd" {
        terminalOutput := terminalOutput + [Lines.pwd];
      } else if key == "whoami" {
        terminalOutput := terminalOutput + [Lines.whoami];
      } else if key == "date" {
        terminalOutput := terminalOutput + [now];
      } else if key == "clear" || key == "cat" {
        if key == "clear" {
          // no break: the reset falls through into the `cat` case
          terminalOutput := [];
        }
        terminalOutput := terminalOutput + [Lines.catUsage];
      } else if key == "echo" {
        terminalOutput := terminalOutput + [SliceFrom(command, 5)];
      } else if key == "uname" {
        terminalOutput := terminalOutput + [Lines.uname];
      } else if key == "ps" {
        terminalOutput := terminalOutput + Lines.ps;
      } else if key == "top" {
        terminalOutput := terminalOutput + Lines.top;
      } else if key == "df" {
        terminalOutput := terminalOutput + Lines.df;
      } else if key == "free" {
        terminalOutput := terminalOutput + Lines.free;
      } else if key == "help" {
        terminalOutput := terminalOutput + Lines.help;
      } else {
        LookupUnknownIff(key);
        terminalOutput := terminalOutput + [NotFound(command)];
      }
    }

    /** The effect that runs once the state is connected: the boot lines are
        appended one after another, in their order. */
    method BootEffect()
      requires isConnected
      modifies this`terminalOutput
      ensures terminalOutput == old(terminalOutput) + BootSequence
    {
      for i := 0 to |BootSequence|
        invariant terminalOutput == old(terminalOutput) + BootSequence[..i]
      {
        terminalOutput := terminalOutput + [BootSequence[i]];
      }
    }
  }
}
