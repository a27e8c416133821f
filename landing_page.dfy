/** The landing page: the subtitle that types itself, pauses, deletes itself and moves on to
    the next one, and the "get started" button. Timers are left to the caller: each call of
    `Tick` is one firing of the typing timer. */
module LandingPage {

  const Subtitles := [
    "Accede a las mejores herramientas de inteligencia artificial",
    "Genera imágenes increíbles solo con tu imaginación",
    "Conversa con GPT-4 y otros modelos avanzados",
    "Convierte texto a voz en segundos",
    "Analiza tus métricas en tiempo real",
    "Crea contenido asombroso con IA"]

  const TypingDelay := 50
  const DeletingDelay := 30
  const NextSubtitleDelay := 500
  const InitialDelay := 100
  /** How long a complete subtitle stays on screen before deleting starts. */
  const PauseBeforeDeleting := 2000

  /** The animation's state: which subtitle, how much of it is shown, whether it is being
      deleted, and the delay before the next tick. */
  class Typewriter {
    var index: nat
    var displayed: string
    var deleting: bool
    var speed: nat

    /** The text shown is always the start of the current subtitle. */
    predicate Valid()
      reads this
    {
      index < |Subtitles| && |displayed| <= |Subtitles[index]| && displayed == Subtitles[index][..|displayed|]
    }

    constructor()
      ensures Valid() && index == 0 && displayed == "" && !deleting && speed == InitialDelay
    {
      index := 0;
      displayed := "";
      deleting := false;
      speed := InitialDelay;
    }

    /** `handleTyping`. While typing, one more character is shown until the subtitle is
        complete; then nothing changes and deleting is scheduled to start after `pauseMs`
        milliseconds (0 when nothing is scheduled).
        While deleting, one character goes until none is left; then the next subtitle,
        cyclically, starts being typed. */
    method Tick() returns (pauseMs: nat)
      requires Valid()
      modifies this
      ensures Valid()
      ensures pauseMs == if !old(deleting) && |old(displayed)| == |Subtitles[old(index)]| then PauseBeforeDeleting else 0
      ensures !old(deleting) && |old(displayed)| < |Subtitles[old(index)]| ==>
        && index == old(index) && displayed == Subtitles[index][..|old(displayed)| + 1] && !deleting
        && speed == TypingDelay
      ensures pauseMs != 0 ==> displayed == old(displayed) && index == old(index) && deleting == old(deleting) && speed == old(speed)
      ensures old(deleting) && |old(displayed)| > 0 ==>
        && displayed == old(displayed)[..|old(displayed)| - 1] && index == old(index) && deleting
        && speed == DeletingDelay
      ensures old(deleting) && old(displayed) == "" ==>
        && displayed == "" && index == (old(index) + 1) % |Subtitles| && !deleting && speed == NextSubtitleDelay
    {
      var current := Subtitles[index];
      pauseMs := 0;
      if !deleting {
        if |displayed| < |current| {
          displayed := current[..|displayed| + 1];
          speed := TypingDelay;
        } else {
          pauseMs := PauseBeforeDeleting;
        }
      } else {
        if |displayed| > 0 {
          displayed := current[..|displayed| - 1];
          speed := DeletingDelay;
        } else {
          deleting := false;
          index := (index + 1) % |Subtitles|;
          speed := NextSubtitleDelay;
        }
      }
    }

    /** The scheduled end of the pause: deleting starts. */
    method StartDeleting()
      requires Valid()
      modifies this
      ensures Valid() && deleting
      ensures index == old(index) && displayed == old(displayed) && speed == old(speed)
    {
      deleting := true;
    }
  }

  /** A full cycle: from an empty subtitle, `n` typing ticks show its first `n` characters. */
  method TypeOut(w: Typewriter, n: nat)
    requires w.Valid() && w.displayed == "" && !w.deleting && n <= |Subtitles[w.index]|
    modifies w
    ensures w.Valid() && w.index == old(w.index) && w.displayed == Subtitles[w.index][..n] && !w.deleting
  {
    var i := 0;
    while i < n
      invariant 0 <= i <= n && w.Valid() && w.index == old(w.index) && !w.deleting
      invariant w.displayed == Subtitles[w.index][..i]
    {
      var _ := w.Tick();
      i := i + 1;
    }
  }

  /** `handleGetStarted`: the chat for a signed-in visitor, the login page otherwise. */
  function GetStartedRoute(isAuthenticated: bool): (route: string)
    ensures route == "/dashboard/chat" <==> isAuthenticated
    ensures route == "/login" <==> !isAuthenticated
  {
    if isAuthenticated then "/dashboard/chat" else "/login"
  }
}
