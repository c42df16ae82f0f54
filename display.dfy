/** The drawing surface the screensavers paint on (an SSD1306-like
    framebuffer), modelled as the log of the commands issued to it, in
    order. What a command does to the pixels (font rendering, blitting,
    flushing to the device) is not modelled. */
module Display {

  datatype DrawCmd =
    | Fill(color: int)
    | Pixel(x: int, y: int, color: int)
    | Line(x0: int, y0: int, x1: int, y1: int, color: int)
    | Text(s: string, x: int, y: int, color: int)
    | Blit(w: int, h: int, x: int, y: int)   // a w-by-h sprite at (x, y)
    | Show

  /** A command that paints into the buffer, as opposed to clearing it or
      flushing it to the device. */
  predicate Paints(c: DrawCmd) {
    !c.Fill? && !c.Show?
  }

  /** The shape of one frame: clear to black first, flush last, and only
      painting in between, so a partly drawn frame is never shown. */
  predicate WellFramed(cmds: seq<DrawCmd>) {
    && |cmds| >= 2
    && cmds[0] == Fill(0)
    && cmds[|cmds| - 1] == Show
    && forall k :: 0 < k < |cmds| - 1 ==> Paints(cmds[k])
  }

  lemma Framed(body: seq<DrawCmd>)
    requires forall c :: c in body ==> Paints(c)
    ensures WellFramed([Fill(0)] + body + [Show])
  {
    var f := [Fill(0)] + body + [Show];
    forall k | 0 < k < |f| - 1 ensures Paints(f[k]) {
      assert f[k] == body[k - 1];
    }
  }

  lemma PaintsConcat(a: seq<DrawCmd>, b: seq<DrawCmd>)
    requires forall c :: c in a ==> Paints(c)
    requires forall c :: c in b ==> Paints(c)
    ensures forall c :: c in a + b ==> Paints(c)
  {
  }

  /** Helper for the logging methods: regrouping appended command lists,
      stated once so that each proof calls it on the lists it needs. */
  lemma ConcatAssoc(a: seq<DrawCmd>, b: seq<DrawCmd>, c: seq<DrawCmd>)
    ensures a + (b + c) == (a + b) + c
  {
  }

  /** Appending the commands of a frame one part at a time appends the
      whole frame. */
  lemma AppendParts(log: seq<DrawCmd>, a: seq<DrawCmd>, b: seq<DrawCmd>, c: seq<DrawCmd>, d: seq<DrawCmd>)
    ensures log + a + b + c + d == log + (a + b + c + d)
  {
    ConcatAssoc(log, a, b);
    ConcatAssoc(log, a + b, c);
    ConcatAssoc(log, a + b + c, d);
  }

  class Surface {
    const width: int
    const height: int
    var log: seq<DrawCmd>

    constructor (width: int, height: int)
      ensures this.width == width && this.height == height && log == []
    {
      this.width := width;
      this.height := height;
      log := [];
    }

    method Fill(color: int)
      modifies this
      ensures log == old(log) + [DrawCmd.Fill(color)]
    {
      log := log + [DrawCmd.Fill(color)];
    }

    method Pixel(x: int, y: int, color: int)
      modifies this
      ensures log == old(log) + [DrawCmd.Pixel(x, y, color)]
    {
      log := log + [DrawCmd.Pixel(x, y, color)];
    }

    method Line(x0: int, y0: int, x1: int, y1: int, color: int)
      modifies this
      ensures log == old(log) + [DrawCmd.Line(x0, y0, x1, y1, color)]
    {
      log := log + [DrawCmd.Line(x0, y0, x1, y1, color)];
    }

    method Text(s: string, x: int, y: int, color: int)
      modifies this
      ensures log == old(log) + [DrawCmd.Text(s, x, y, color)]
    {
      log := log + [DrawCmd.Text(s, x, y, color)];
    }

    method Blit(w: int, h: int, x: int, y: int)
      modifies this
      ensures log == old(log) + [DrawCmd.Blit(w, h, x, y)]
    {
      log := log + [DrawCmd.Blit(w, h, x, y)];
    }

    method Show()
      modifies this
      ensures log == old(log) + [DrawCmd.Show]
    {
      log := log + [DrawCmd.Show];
    }
  }
}
