/**
 * ISceneManager (Interfaces/ISceneManager.h): the list of registered scenes,
 * the current scene, and the per-frame calls forwarded to the current scene.
 * What a scene does when called is its own business; the forwarded calls are
 * recorded, in order, in `forwarded`.
 */
module SceneManagement {

  /** A scene: only its name (IScene::SceneName) matters to the manager. */
  class Scene {
    var sceneName: string

    constructor (sceneName: string)
      ensures this.sceneName == sceneName
    {
      this.sceneName := sceneName;
    }
  }

  /** A call forwarded to a scene: Initialize, LoadContent, Update(dt), Render(dt). */
  datatype SceneCall =
    | Initialize(scene: Scene)
    | LoadContent(scene: Scene)
    | Update(scene: Scene, deltaTime: real)
    | Render(scene: Scene, deltaTime: real)

  /** The position of the first scene whose name is `name`, as std::find_if finds it. */
  function FirstSceneNamed(scenes: seq<Scene>, name: string): (index: nat)
    reads scenes
    requires exists i :: 0 <= i < |scenes| && scenes[i].sceneName == name
    ensures index < |scenes| && scenes[index].sceneName == name
    ensures forall j :: 0 <= j < index ==> scenes[j].sceneName != name
  {
    if scenes[0].sceneName == name then 0
    else
      assert exists i :: 0 <= i < |scenes[1..]| && scenes[1..][i].sceneName == name by {
        var i :| 0 <= i < |scenes| && scenes[i].sceneName == name;
        assert scenes[1..][i - 1] == scenes[i];
      }
      FirstSceneNamed(scenes[1..], name) + 1
  }

  class SceneManager {
    /** m_scenes. */
    var scenes: seq<Scene>
    /** m_currentScene; null until a scene is made current. */
    var currentScene: Scene?
    /** The calls forwarded to the current scene, in order. */
    var forwarded: seq<SceneCall>

    /** ISceneManager(): no scenes and no current scene. */
    constructor ()
      ensures scenes == [] && currentScene == null && forwarded == []
    {
      scenes := [];
      currentScene := null;
      forwarded := [];
    }

    /** RegisterScene(scene, name): name the scene, append it last, and return it. */
    method RegisterScene(scene: Scene, name: string) returns (stored: Scene)
      modifies this, scene
      ensures stored == scene && scene.sceneName == name
      ensures scenes == old(scenes) + [scene]
      ensures currentScene == old(currentScene) && forwarded == old(forwarded)
    {
      scene.sceneName := name;
      scenes := scenes + [scene];
      stored := scene;
    }

    /**
     * SetCurrentScene(name): the first registered scene with the name
     * becomes current.  A name nobody registered makes find_if return
     * end(), which is dereferenced, so the name must be registered.
     */
    method SetCurrentScene(name: string)
      requires exists i :: 0 <= i < |scenes| && scenes[i].sceneName == name
      modifies this
      ensures scenes == old(scenes) && forwarded == old(forwarded)
      ensures currentScene == scenes[FirstSceneNamed(scenes, name)]
      ensures currentScene != null && currentScene.sceneName == name
    {
      currentScene := scenes[FirstSceneNamed(scenes, name)];
    }

    /** SetCurrentScene(scene): make the given scene current, registered or not. */
    method SetCurrentSceneTo(scene: Scene?)
      modifies this
      ensures currentScene == scene
      ensures scenes == old(scenes) && forwarded == old(forwarded)
    {
      currentScene := scene;
    }

    /** Initialize: forward to the current scene, which must exist. */
    method InitializeScene()
      requires currentScene != null
      modifies this
      ensures scenes == old(scenes) && currentScene == old(currentScene)
      ensures forwarded == old(forwarded) + [Initialize(currentScene)]
    {
      forwarded := forwarded + [Initialize(currentScene)];
    }

    /** LoadContent: forward to the current scene, which must exist. */
    method LoadSceneContent()
      requires currentScene != null
      modifies this
      ensures scenes == old(scenes) && currentScene == old(currentScene)
      ensures forwarded == old(forwarded) + [LoadContent(currentScene)]
    {
      forwarded := forwarded + [LoadContent(currentScene)];
    }

    /** Update(deltaTime): forward to the current scene, which must exist. */
    method UpdateScene(deltaTime: real)
      requires currentScene != null
      modifies this
      ensures scenes == old(scenes) && currentScene == old(currentScene)
      ensures forwarded == old(forwarded) + [Update(currentScene, deltaTime)]
    {
      forwarded := forwarded + [Update(currentScene, deltaTime)];
    }

    /** Render(deltaTime): forward to the current scene, which must exist. */
    method RenderScene(deltaTime: real)
      requires currentScene != null
      modifies this
      ensures scenes == old(scenes) && currentScene == old(currentScene)
      ensures forwarded == old(forwarded) + [Render(currentScene, deltaTime)]
    {
      forwarded := forwarded + [Render(currentScene, deltaTime)];
    }
  }

  /**
   * Registering a scene under a name no earlier scene has, then selecting
   * that name, makes exactly that scene current; a name registered twice
   * keeps selecting the first.
   */
  method RegisterThenSelect(manager: SceneManager, scene: Scene, name: string)
    requires scene !in manager.scenes
    modifies manager, scene
    ensures (forall i :: 0 <= i < |old(manager.scenes)| ==> old(manager.scenes[i].sceneName) != name)
            ==> manager.currentScene == scene
    ensures (exists i :: 0 <= i < |old(manager.scenes)| && old(manager.scenes[i].sceneName) == name)
            ==> manager.currentScene in old(manager.scenes)
    ensures manager.scenes == old(manager.scenes) + [scene]
  {
    var stored := manager.RegisterScene(scene, name);
    assert manager.scenes[|manager.scenes| - 1].sceneName == name;
    manager.SetCurrentScene(name);
    if exists i :: 0 <= i < |old(manager.scenes)| && old(manager.scenes[i].sceneName) == name {
      var i :| 0 <= i < |old(manager.scenes)| && old(manager.scenes[i].sceneName) == name;
      assert manager.scenes[i].sceneName == name;
    }
  }
}
