/**
 * The ffmpeg.wasm instance, seen only through its calls. Each call may
 * succeed or fail (its promise resolves or rejects); which one happens is
 * the engine's choice, so every call is an oracle answer, and the instance
 * keeps the log of calls made to it with their outcomes.
 */
module Engine {
  datatype Call =
    | Load
    | WriteFile(name: string)
    | Exec(args: seq<string>)
    | ReadFile(name: string)
    | DeleteFile(name: string)

  /** One call and whether it succeeded. */
  datatype Event = Event(call: Call, ok: bool)

  class FFmpeg {
    var log: seq<Event>

    constructor ()
      ensures log == []
    {
      log := [];
    }

    /** Issues one call; the outcome is whatever the engine answers. */
    method Invoke(c: Call) returns (ok: bool)
      modifies this
      ensures log == old(log) + [Event(c, ok)]
    {
      ok :| true;
      log := log + [Event(c, ok)];
    }

    method Load() returns (ok: bool)
      modifies this
      ensures log == old(log) + [Event(Call.Load, ok)]
    {
      ok := Invoke(Call.Load);
    }

    method WriteFile(name: string) returns (ok: bool)
      modifies this
      ensures log == old(log) + [Event(Call.WriteFile(name), ok)]
    {
      ok := Invoke(Call.WriteFile(name));
    }

    method Exec(args: seq<string>) returns (ok: bool)
      modifies this
      ensures log == old(log) + [Event(Call.Exec(args), ok)]
    {
      ok := Invoke(Call.Exec(args));
    }

    method ReadFile(name: string) returns (ok: bool)
      modifies this
      ensures log == old(log) + [Event(Call.ReadFile(name), ok)]
    {
      ok := Invoke(Call.ReadFile(name));
    }

    method DeleteFile(name: string) returns (ok: bool)
      modifies this
      ensures log == old(log) + [Event(Call.DeleteFile(name), ok)]
    {
      ok := Invoke(Call.DeleteFile(name));
    }
  }
}
