/** The document's root element, whose class list selects the colour
    scheme of every page. */
module Dom {
  class RootElement {
    var classList: set<string>

    constructor (classes: set<string>)
      ensures classList == classes
    {
      classList := classes;
    }

    /** `classList.add(c)` */
    method Add(c: string)
      modifies this
      ensures classList == old(classList) + {c}
    {
      classList := classList + {c};
    }

    /** `classList.remove(c)` */
    method Remove(c: string)
      modifies this
      ensures classList == old(classList) - {c}
    {
      classList := classList - {c};
    }
  }
}
