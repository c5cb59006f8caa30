/** The photo gallery (src/pages/Galeria.jsx): the category filter and the
    enlarged-image viewer. */
module Galeria {
  import opened Base

  datatype Foto = Foto(id: nat, titulo: string, descripcion: string, categoria: string, imagen: string)

  /** `fotosFiltradas`: 'todos' keeps every photo, any other category keeps
      exactly the photos of that category, in order. */
  function FotosFiltradas(fotos: seq<Foto>, categoria: string): (r: seq<Foto>)
    ensures categoria == "todos" ==> r == fotos
    ensures categoria != "todos" ==> forall i :: 0 <= i < |r| ==> r[i] in fotos && r[i].categoria == categoria
    ensures categoria != "todos" ==> forall i :: 0 <= i < |fotos| && fotos[i].categoria == categoria ==> fotos[i] in r
  {
    PorCategoria(fotos, categoria, (f: Foto) => f.categoria)
  }

  /** The grid keeps the order of the photo list. */
  lemma FotosEnOrden(fotos: seq<Foto>, categoria: string)
    ensures IsSubsequence(FotosFiltradas(fotos, categoria), fotos)
  {
    PorCategoriaIsSubsequence(fotos, categoria, (f: Foto) => f.categoria);
  }

  /** Where a click on the open viewer lands. */
  datatype Zona = Fondo | Panel | BotonCerrar

  /** The page's state. */
  class PaginaGaleria {
    const fotos: seq<Foto>
    var selectedCategory: string
    var selectedImage: Option<Foto>

    constructor (fs: seq<Foto>)
      ensures fotos == fs && selectedCategory == "todos" && selectedImage.None?
      ensures Filtradas() == fs
    {
      fotos := fs;
      selectedCategory := "todos";
      selectedImage := None;
    }

    function Filtradas(): seq<Foto>
      reads this
    {
      FotosFiltradas(fotos, selectedCategory)
    }

    /** A category button (line 44). */
    method ElegirCategoria(categoria: string)
      modifies this
      ensures selectedCategory == categoria && selectedImage == old(selectedImage)
    {
      selectedCategory := categoria;
    }

    /** Clicking a tile (line 62) opens the viewer on that photo. */
    method AbrirFoto(f: Foto)
      modifies this
      ensures selectedImage == Some(f) && selectedCategory == old(selectedCategory)
    {
      selectedImage := Some(f);
    }

    /** A click on the open viewer: the backdrop and 'Cerrar' close it, a
        click inside the panel is stopped and changes nothing. */
    method ClicEnVisor(zona: Zona)
      requires selectedImage.Some?
      modifies this
      ensures zona == Panel ==> selectedImage == old(selectedImage)
      ensures zona != Panel ==> selectedImage.None?
      ensures selectedCategory == old(selectedCategory)
    {
      if zona != Panel {
        selectedImage := None;
      }
    }
  }
}
